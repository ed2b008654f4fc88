# LMSTools core, modelled in Dafny

LMSTools is a Python client for Logitech Media Server (LMS). This project models its sequential core and proves properties of that model:

- **`LMSServer`** (`server.dfy`, module `Server`) is the JSON-RPC client.
  - It derives the web base and the RPC endpoint from host and port.
  - It turns a command into tokens and builds the `slim.request` payload.
  - It keeps the request-id counter.
  - It parses sync groups and builds the sync-status report.
  - It caches the server version.
  - It runs the `rescan` decision table.
  - Each request is given the outcome of its HTTP exchange as an `HttpOutcome` argument. A ghost log records every payload posted.
- **Menu items** (`menuitems.dfy`, module `MenuItems`) turn the JSON menu dicts of the server into command token lists and command strings.
  - It covers the icon fallback chain and URL prefixing.
  - It covers `key:value` formatting.
  - It inserts the `0, 1000` paging pair after `"items"`.
  - It substitutes `__TAGGEDINPUT__` with the search query.
  - It looks up the action for each mode, falling back to the base menu.
  - A playlist item's `play`/`play_next`/`add` are methods of a small class that records the command strings sent to the player.
- **`LMSArtworkResolver`** (`artworkresolver.dfy`, module `Artwork`) turns a track dict into a cover-art URL.
  - It validates the track: TypeError for a non-dict, KeyError for a failed strict-subset key test.
  - It picks the remote or the local branch.
  - It fills the URL template through a model of `str.format`.
  - `getURL` writes the integer `coverart` back into the caller's dict. The dict is therefore a `Track` object that the method modifies.
- **`LMSCallbackServer`** (`callbackserver.dfy`, module `CallbackServer`) is a class with two parts:
  - a registry of callbacks (an insertion-ordered map from event to callback);
  - a duplicate-free list of notification types.

  It adds and removes events, dispatches a received event to the first registered event it contains, and trims the telnet echo from a response. It also chooses the subscribe/listen command, and has the `set_server`, `__connect` and `stop` guards. Callbacks are opaque handles, and every call of one is appended to the field `invoked`.

Three modules model the parts of Python the core relies on:
- `values.dfy` (`Values`):
  - JSON values;
  - truthiness;
  - `str()`/`repr()`;
  - `int()`;
  - `dict.get` and subscripting;
  - iteration;
  - `list.index` and `list.insert`.
- `text.dfy` (`Text`):
  - `split`, `split()`, `join` and `replace`;
  - the substring test, `find` and slicing.
- `dicts.dfy` (`Dicts`) represents a dict as a sequence of (key, value) pairs with unique keys, in insertion order. It provides `get`, `d[k] = v` and `del`.

## Model

| member | source | states |
|---|---|---|
| Server.LMSServer.constructor | LMSTools/server.py:28-34 | Host and port default to `localhost` and 9000. `web` is `http://host:port/`, `url` is `http://host:port/jsonrpc.js`, the first id is 1, `_version` is None, and no players are known yet |
| Server.UrlsDetermineServer | LMSTools/server.py:33-34 | The endpoint is the web base followed by `jsonrpc.js`. For hosts without ':', two servers with the same web base have the same host and port |
| Server.Tokenize | LMSTools/server.py:44-47 | A list command is sent unchanged. A string command becomes whitespace-free, non-empty words |
| Server.TokenizeJoinedWords | LMSTools/server.py:44-47 | Words joined with spaces are sent as exactly those words, in order |
| Server.TokenizeIgnoresOuterSpace | LMSTools/server.py:44-47 | A space before or after a command string changes none of the tokens sent |
| Server.PlayerCountTokens | LMSTools/server.py:94 | `player count ?` is sent as the three tokens `player`, `count`, `?` |
| Server.RescanPlaylistsTokens | LMSTools/server.py:230 | `rescan playlists` is sent as the two tokens `rescan`, `playlists` |
| Server.PayloadFields | LMSTools/server.py:48-53 | The payload's `id` is the current id, its `method` is `slim.request` and its `params` is `[player, tokens]` |
| Server.ResponseResult | LMSTools/server.py:57-60 | A request yields a value exactly when the status passes, the body decodes to a dict and that dict has `result` |
| Server.LMSServer.Request | LMSTools/server.py:44-60 | The payload is posted with the current id. The id moves on by exactly one once `raise_for_status` has passed, and stays put otherwise. The result is the `result` field or the matching error |
| Server.RangeLength | LMSTools/server.py:78 | `range(count)` has `count` elements, none for a negative count; a non-integer count is a TypeError |
| Server.LMSServer.GetPlayerCount | LMSTools/server.py:83-94 | Sends `player count ?` and returns its `_count` field |
| Server.LMSServer.GetPlayers | LMSTools/server.py:76-81 | `players` is reset. The call succeeds exactly when the `_count` field can be read and `range` accepts it. It then holds `count` players, the i-th being `from_index(i)`, and is also the result. On failure the error is the count's and `players` stays empty |
| Server.PlayersFrom | LMSTools/server.py:78-80 | `count` players, the i-th being `from_index(i)`, in ascending order |
| Server.GroupsOf | LMSTools/server.py:108 | One group per `syncgroups_loop` entry, in order, each being the entry's `sync_members` split on commas; an entry whose `sync_members` is not a string makes the whole call fail |
| Server.Members | LMSTools/server.py:108 | A non-dict entry has no `.get` (AttributeError). A missing `sync_members` reads as `""`. A present one must be a string, otherwise it has no `.split` (AttributeError) |
| Server.SyncGroups | LMSTools/server.py:108 | A non-dict result is an AttributeError, and one without `syncgroups_loop` has no groups. Otherwise it succeeds exactly when the loop is iterable and every entry gives a group, and the groups are GroupsOf the entries, one per entry; a loop that cannot be iterated is its error |
| Server.SyncGroupsJoin | LMSTools/server.py:108 | Re-joining a group with commas gives the entry's `sync_members`. Any dict entry without `sync_members` gives the group `[""]` |
| Server.SyncGroupsMissingLoop | LMSTools/server.py:108 | A result without `syncgroups_loop` has no groups |
| Server.SyncGroupsRoundTrip | LMSTools/server.py:101-108 | One loop entry listing comma-free refs gives back exactly those refs as one group (the documented example) |
| Server.SyncIndex | LMSTools/server.py:150-154 | The index of the first group holding the ref, or -1 exactly when no group holds it |
| Server.SyncEntries | LMSTools/server.py:146-155 | One entry per player, in the players' order, each with the player's name, ref and sync index |
| Server.LMSServer.GetSyncGroups | LMSTools/server.py:96-109 | Sends `syncgroups ?` and returns the groups parsed from its result |
| Server.SyncGroupsOf | LMSTools/server.py:107-108 | Groups come only from a decoded dict answer holding `result`. An unreachable server, a failed status and an undecodable body give ConnectionError, HTTPError and ValueError. A readable `result` gives exactly SyncGroups of it |
| Server.LMSServer.ShowPlayersSyncStatus | LMSTools/server.py:141-162 | Succeeds exactly when both the player count and the groups can be read. When the count fails, only `player count ?` is sent, `players` is empty and the count's error is the result. Otherwise `syncgroups ?` follows with the next id, `players` holds `from_index(0..count-1)`, and a groups failure is the result. On success `group_count` is the number of groups and `player_count` the number of players, with one entry per player, in order, holding its first sync-group index |
| Server.LMSServer.Sync | LMSTools/server.py:164-173 | Sends `["sync", slave]` addressed to the master player |
| Server.LMSServer.Ping | LMSTools/server.py:176-194 | As written: a failed request escapes as an error, and the result is never False |
| Server.LMSServer.PingIntended | LMSTools/server.py:176-194 | True exactly when the server answers with a result, False otherwise |
| Server.LMSServer.Version | LMSTools/server.py:196-209 | Sends `version ?` only while `_version` is None and caches the `_version` field. Later reads return the cached value and send nothing |
| Server.RescanCommand | LMSTools/server.py:224-230 | Exactly the modes `fast`, `full` and `playlists` have a command |
| Server.ScanInProgress | LMSTools/server.py:218-222 | Any failure of the probe request counts as a running scan. A scan is reported as not running only when the server answered and `_rescan` could be read |
| Server.LMSServer.Rescan | LMSTools/server.py:211-232 | Probes with `rescan ?`. A running scan, or any failure of the probe, returns `""` and sends nothing more. Otherwise `fast` sends `rescan`, `full` sends `wipecache` and `playlists` sends `rescan playlists`; any other mode returns None |
| Server.LMSServer.RescanProgress | LMSTools/server.py:234-239 | Sends `rescanprogress` on every read and returns its `_rescan` field |
| Server.BindRequestKeywords | LMSTools/server.py:36 | A call of `_request(command, player="-")` binds only when `command` is given and every keyword is `command` or `player` |
| Server.AsWrittenCallsRaise | LMSTools/server.py:107 | `_request(params=...)` and `_request(player=..., params=...)` raise TypeError; `_request(player=..., command=...)` binds |
| MenuItems.MenuType | LMSTools/menuitems.py:4-13 | `audio` exactly for audio items, `playlist` exactly for playlist items, `search` exactly for search items, and `menu` for the rest |
| MenuItems.RawIcon | LMSTools/menuitems.py:34-47 | A menu item that is not a dict has no `.get` (AttributeError) |
| MenuItems.TrackCover | LMSTools/menuitems.py:45-47 | A truthy track id becomes `music/<str(id)>/cover`. A falsy one is kept as it is |
| MenuItems.IconChain | LMSTools/menuitems.py:36-47 | The icon is the first non-None of `icon`, `icon-id`, `window.icon-id` and the track cover |
| MenuItems.GetIcon | LMSTools/menuitems.py:49-51 | A falsy icon is returned unprefixed. A truthy non-string has no `startswith` (AttributeError). A truthy string starting with `http` is returned unchanged, and any other is the web base followed by it |
| MenuItems.IconIsAbsolute | LMSTools/menuitems.py:49-50 | With the server's web base, every truthy icon is an `http` URL |
| MenuItems.FormatFields | LMSTools/menuitems.py:53-54 | One `key:str(value)` per entry, in the dict's order |
| MenuItems.FormatDictCmd | LMSTools/menuitems.py:53-54 | A dict gives its formatted entries. A list succeeds exactly when every element is a valid index into the list, and gives `"x:item[x]"` for each element `x` in order. The empty string gives no strings, and any other string is a TypeError, because a string cannot be indexed by a string. None, numbers and booleans are not iterable (TypeError). The only errors are TypeError and IndexError, never KeyError |
| MenuItems.FormatDictRoundTrip | LMSTools/menuitems.py:53-54 | For colon-free keys, splitting each string at its first ':' gives back the key and `str(value)` |
| MenuItems.InsertPaging | LMSTools/menuitems.py:62-67 | Without `"items"` the command is unchanged. Otherwise `0` and then `1000` sit right after the first `"items"`, and everything else keeps its order |
| MenuItems.GoCommand | LMSTools/menuitems.py:61 | `act["cmd"]` is required (KeyError). It succeeds exactly when `cmd` is a list and `params` formats, and the result is that list followed by the formatted `params` (an empty dict when absent) |
| MenuItems.BuildCmd | LMSTools/menuitems.py:56-71 | An item that is not a dict, or whose `actions` is not a dict, gives that error. No (or a falsy) `actions.go` gives `[]`. Otherwise the result is the go command with the paging pair inserted |
| MenuItems.BuildCmdPaging | LMSTools/menuitems.py:62-68 | The command grows by exactly two tokens when it holds `"items"`, and removing them gives the command back |
| MenuItems.SearchCmd | LMSTools/menuitems.py:113-123 | Same length as `build_cmd`. Each element whose string form contains the placeholder becomes that string with every occurrence replaced by the query. The others are unchanged |
| MenuItems.TagSubst | LMSTools/menuitems.py:121-122 | The string form of the element afterwards is its string form with every placeholder replaced. An element without the placeholder is kept as it is, whatever its type |
| MenuItems.CmdSearch | LMSTools/menuitems.py:125-134 | Defined exactly when `build_cmd` is |
| MenuItems.SearchMatchesCmdSearch | LMSTools/menuitems.py:120-134 | The space-joined `search(q)` is `cmd_search` with every placeholder replaced by `q` |
| MenuItems.SearchPlaceholderKeepsStrings | LMSTools/menuitems.py:121-122 | Searching for the placeholder itself leaves every string element unchanged |
| MenuItems.ActionFor | LMSTools/menuitems.py:145-148 | The item's own truthy action for the mode wins; otherwise the base menu's action is used |
| MenuItems.OwnAction | LMSTools/menuitems.py:145 | A menu item that is not a dict has no `.get` (AttributeError) |
| MenuItems.ItemsParams | LMSTools/menuitems.py:153-158 | A missing `itemsParams` target contributes nothing. A present one contributes exactly its formatted entries or their error. An int, bool or None key names a missing target and contributes nothing; a list or dict key is a TypeError (unhashable). KeyError never escapes |
| MenuItems.AssembleAction | LMSTools/menuitems.py:150-158 | Succeeds exactly when `cmd` is iterable, `params` formats and, for a truthy key, the `itemsParams` part does. The command is then `cmd`, then the formatted `params`, then (for a truthy key) the item's formatted `itemsParams` target |
| MenuItems.ActionCommand | LMSTools/menuitems.py:150-160 | No action gives `[]`. An action that is not a dict is an AttributeError. A dict action succeeds exactly when its `cmd` is iterable, its `params` format and a truthy `itemsParams` formats. The result is `act.cmd` (default `[]`), then the formatted `act.params` (default `{}`), then, when `act.itemsParams` is truthy, the formatted item entry it names |
| MenuItems.AbsentItemsParams | LMSTools/menuitems.py:153-158 | An `itemsParams` that names a missing key acts as if there were none |
| MenuItems.CmdFromAction | LMSTools/menuitems.py:142-160 | The command of the chosen action, and `[]` when there is none. An error in finding the action (an item or base menu that is not a dict) is the result |
| MenuItems.OwnActionWins | LMSTools/menuitems.py:145-148 | When the item has its own action, the base menu does not affect the command |
| MenuItems.MissingItemsParamsSkipped | LMSTools/menuitems.py:153-158 | An action whose `itemsParams` names a missing key gives the same command as that action without `itemsParams` |
| MenuItems.CommandString | LMSTools/menuitems.py:73-74 | The elements' string forms joined with spaces, and an error when the command is one |
| MenuItems.CommandStringsTokenize | LMSTools/menuitems.py:184-220 | `cmd_play`, `cmd_play_next`, `cmd_add` and `show_items_cmd` are the joined commands of the modes `play`, `add-hold`, `add` and `go`. When the elements print as single words, the server splits the string back into them |
| MenuItems.Go | LMSTools/menuitems.py:177-184 | The item's own truthy `go` action gives its command. Otherwise the base menu's `go` action is used, still with the item's own `itemsParams` entry, and no action at all gives `[]`. An error reading the item's or the base menu's action is the result |
| MenuItems.CmdPlay | LMSTools/menuitems.py:186-192 | The joined command of the item's own truthy `play` action, else of the base menu's, else `""`. An error reading either action is the result |
| MenuItems.CmdPlayNext | LMSTools/menuitems.py:194-201 | The joined command of the item's own truthy `add-hold` action, else of the base menu's, else `""`. An error reading either action is the result |
| MenuItems.CmdAdd | LMSTools/menuitems.py:203-211 | The joined command of the item's own truthy `add` action, else of the base menu's, else `""`. An error reading either action is the result |
| MenuItems.ShowItemsCmd | LMSTools/menuitems.py:213-220 | The space-joined `go()` command: the item's own truthy `go` action, else the base menu's, else `""`. An error reading either action is the result |
| MenuItems.NewMenuItem | LMSTools/menuitems.py:17-32 | `text` is the item's `text`, `""` when absent. The icon is `_get_icon`'s. Only a next-menu item has a command, and it is `build_cmd`'s. A dict item is built exactly when its icon and (for a next-menu item) its command are. A non-dict menu item is an AttributeError |
| MenuItems.CmdString | LMSTools/menuitems.py:76-81 | None unless the item holds a command list, in which case it is that list joined with spaces |
| MenuItems.CmdStringOnlyForNext | LMSTools/menuitems.py:76-100 | Of the constructed items, only a next-menu item has a command string, and it is the joined `build_cmd` |
| MenuItems.PlayerRequests.Send | LMSTools/menuitems.py:165 | A command string is sent to the player, and nothing is sent when building it failed |
| MenuItems.PlayerRequests.Play | LMSTools/menuitems.py:162-165 | Sends `cmd_play` and returns normally; a failure to build it sends nothing and is the result |
| MenuItems.PlayerRequests.PlayNext | LMSTools/menuitems.py:167-170 | Sends `cmd_play_next` and returns normally; a failure to build it sends nothing and is the result |
| MenuItems.PlayerRequests.Add | LMSTools/menuitems.py:172-175 | Sends `cmd_add` and returns normally; a failure to build it sends nothing and is the result |
| Values.PyInt | LMSTools/artworkresolver.py:86-87 | `int()` of an int is itself and of a bool is 0 or 1. A string is parsed as decimal. None, lists and dicts are a TypeError |
| Artwork.BaseFormat | LMSTools/artworkresolver.py:21 | Formatting `http://{host}:{port}` puts host and port in verbatim |
| Artwork.Format | LMSTools/artworkresolver.py:21-22 | `str.format` on plain-name fields fails only with KeyError (unknown name), ValueError (lone brace) or IndexError (empty field) |
| Artwork.LMSArtworkResolver.constructor | LMSTools/artworkresolver.py:16-24 | Host and port default to `localhost` and 9000. `localart` is the base followed by the cover template, and `default` is the same template |
| Artwork.LocalTemplateUrl | LMSTools/artworkresolver.py:22 | For a host without braces, filling the local template gives `http://host:port/music/{coverid}/cover_{h}x{w}_p.png` with the values in place |
| Artwork.ExactKeysRejected | LMSTools/artworkresolver.py:81-83 | A track whose keys are exactly `remote` and `coverart`, in either order, raises KeyError, because the subset test is strict |
| Artwork.RequiredKeysStrictSubset | LMSTools/artworkresolver.py:74-83 | For a dict, `{"remote", "coverart"} < set(track.keys())` holds exactly when both keys are present and the track has at least three keys |
| Artwork.TrackAfterOnlyCoverart | LMSTools/artworkresolver.py:86 | `getURL` keeps the track's keys and their order, replaces `coverart` with its integer value and changes no other key |
| Artwork.TrackAfter | LMSTools/artworkresolver.py:86 | The track keeps its keys, in order, and every entry other than `coverart` is unchanged |
| Artwork.RemoteReadAfterWrite | LMSTools/artworkresolver.py:86-87 | Reading `remote` after writing `coverart` sees the caller's value |
| Artwork.RemoteArtworkVerbatim | LMSTools/artworkresolver.py:26-35 | A remote track with a truthy `artwork_url` gets that URL unchanged, whatever the size |
| Artwork.RemoteFallback | LMSTools/artworkresolver.py:37-39 | A remote track without artwork gets the fallback template with cover id 0 |
| Artwork.LocalCover | LMSTools/artworkresolver.py:41-58 | A local track with nonzero `coverart` gets the template with its `coverid`, or a KeyError when `coverid` is missing. With zero it gets cover id 0 |
| Artwork.LocalTrackUrl | LMSTools/artworkresolver.py:41-58 | End to end with the constructor's template: `http://host:port/music/<coverid>/cover_<h>x<w>_p.png`, with cover id 0 when `coverart` is zero |
| Artwork.RemoteUrl | LMSTools/artworkresolver.py:26-39 | A truthy `artwork_url` is returned verbatim. A missing or falsy one gives the fallback template with cover id 0 |
| Artwork.LocalUrl | LMSTools/artworkresolver.py:41-58 | A missing or falsy `coverart` gives the fallback template with cover id 0. A truthy one gives the local template with `str(coverid)`, or KeyError when `coverid` is missing |
| Artwork.UrlFor | LMSTools/artworkresolver.py:74-95 | A failed strict-subset key test raises the KeyError. A URL is returned only for a track that passes it and whose `coverart` converts with `int()`. A failed conversion is the result |
| Artwork.LMSArtworkResolver.GetURL | LMSTools/artworkresolver.py:60-95 | A non-dict is a TypeError. For a dict, the result is the URL the resolution rules give for the track as passed in, and the track afterwards holds the integer `coverart` |
| Artwork.LMSArtworkResolver.GetURLDefault | LMSTools/artworkresolver.py:60 | `getURL(track)` resolves with the size (500, 500) |
| CallbackServer.LMSCallbackServer.constructor | LMSTools/callbackserver.py:167-186 | No callbacks, no notifications, not aborted, not connected, no parent class, and the given server details (defaults: no hostname, port 9090, empty username and password) |
| CallbackServer.AddNote | LMSTools/callbackserver.py:330-332 | The notification is present afterwards. The list stays duplicate-free and keeps its old entries in front |
| CallbackServer.LMSCallbackServer.AddOne | LMSTools/callbackserver.py:328-332 | The event maps to the callback. An existing event keeps its position and a new one goes last. The event's first word is noted once. The registry invariant is kept |
| CallbackServer.LMSCallbackServer.AddCallback | LMSTools/callbackserver.py:312-326 | A list registers each event in order, and anything else registers one event. The registry invariant is kept |
| CallbackServer.LMSCallbackServer.AddEach | LMSTools/callbackserver.py:321-323 | Registers each listed event in order. The registry invariant is kept |
| CallbackServer.PutAll | LMSTools/callbackserver.py:321-323 | The registered events afterwards are the old ones plus the listed ones, and no others |
| CallbackServer.NoteAll | LMSTools/callbackserver.py:321-332 | The old notifications stay in front and duplicate-free. The notifications afterwards are the old ones plus the first words of the events, and nothing else |
| CallbackServer.PutAllUnique | LMSTools/callbackserver.py:321-323 | Registering a list keeps the events distinct |
| CallbackServer.PutAllListed | LMSTools/callbackserver.py:321-323 | After registering a list, every listed event maps to the callback |
| CallbackServer.PutAllUnlisted | LMSTools/callbackserver.py:321-323 | Registering a list leaves every other event's callback unchanged |
| CallbackServer.NoteAllOneWord | LMSTools/callbackserver.py:328-332 | Events that share a first word add a single notification |
| CallbackServer.PlaylistChangedNotification | LMSTools/callbackserver.py:145-154 | All five `PLAYLIST_CHANGED` events belong to the notification `playlist`, so registering them subscribes to that one notification |
| CallbackServer.RemoveAllShrinks | LMSTools/callbackserver.py:341-349 | Deleting events, however the loop ends, never adds an event and keeps the events distinct |
| CallbackServer.RemoveAllKeys | LMSTools/callbackserver.py:341-349 | After a complete removal, an event is left exactly when it was registered and not in the list |
| CallbackServer.RemoveAllSucceeds | LMSTools/callbackserver.py:341-349 | The loop finishes without KeyError exactly when the listed events are registered and pairwise distinct |
| CallbackServer.RemoveAll | LMSTools/callbackserver.py:341-349 | The registry never grows. A complete removal removes exactly one entry per event, and a stopped one reports a listed event as missing |
| CallbackServer.RemoveEach | LMSTools/callbackserver.py:341-349 | The deletion loop ends with the registry and the first missing event given by the removal function |
| CallbackServer.RemoveAllGetOther | LMSTools/callbackserver.py:341-349 | An event that is not removed keeps its callback, whether the loop completes or stops at a KeyError |
| CallbackServer.RemoveAllSpec | LMSTools/callbackserver.py:341-349 | Removing a list succeeds exactly when its events are registered and distinct. The remaining events are then exactly the others. Every event not named keeps its callback, however the removal ends |
| CallbackServer.LMSCallbackServer.RemoveCallback | LMSTools/callbackserver.py:334-349 | Deletes the events in order. The first one not registered raises KeyError and stops the loop. The notifications are untouched and the registry invariant is kept |
| CallbackServer.FirstMatch | LMSTools/callbackserver.py:356-357 | The first registered event, in registry order, that occurs in the received event; -1 exactly when none does |
| CallbackServer.RegisteredEventDispatches | LMSTools/callbackserver.py:356-363 | Receiving a registered event always triggers a callback: its own, or that of an earlier registered event it contains |
| CallbackServer.CallbackArgs | LMSTools/callbackserver.py:359-362 | A callback receives the parent class first when it is set, then the decoded event |
| CallbackServer.LMSCallbackServer.CheckEvent | LMSTools/callbackserver.py:351-363 | Calls exactly the callback of the first matching event, at most one call, and nothing when no event matches |
| CallbackServer.QuotedCommand | LMSTools/callbackserver.py:227-230 | The find-and-slice quoting replaces every ':' of the command with `%3A`, leaving none and lengthening it by two per colon |
| CallbackServer.EchoedCommand | LMSTools/callbackserver.py:224-242 | Without `preserve_encoding` the echo is the command itself. With it, the echo has no ':' and is two characters longer per colon |
| CallbackServer.StripEcho | LMSTools/callbackserver.py:231-243 | The result is a suffix of the response |
| CallbackServer.StripFullEcho | LMSTools/callbackserver.py:232-237 | For `songinfo`, `trackstat`, `albums`, `songs`, `artists`, `rescan` and `rescanprogress`, an echo made of the command and a space is removed exactly, quoted or not |
| CallbackServer.StripQueryEcho | LMSTools/callbackserver.py:238-242 | For other commands, an echo made of the command without its last character is removed exactly, quoted or not |
| CallbackServer.ListenCommand | LMSTools/callbackserver.py:409-415 | `listen` exactly when there are no notifications |
| CallbackServer.ListenCommandRoundTrip | LMSTools/callbackserver.py:409-411 | A subscription starts with `subscribe ` and splits back into the notifications, in order |
| CallbackServer.LMSCallbackServer.SetServer | LMSTools/callbackserver.py:270-301 | Refused with `Server already logged in.` while connected, changing nothing. Otherwise it sets the server details (port defaulting to 9090, username and password to empty), and sets the parent class only when the argument is truthy |
| CallbackServer.LMSCallbackServer.Connect | LMSTools/callbackserver.py:188-194 | A falsy hostname is refused with `No server details provided.`. Otherwise `is_connected` is set once both the telnet connection and the login succeed |
| CallbackServer.LMSCallbackServer.ConnectAsWritten | LMSTools/callbackserver.py:206-214 | As written, the login always fails, so `is_connected` is never set |
| CallbackServer.LMSCallbackServer.Stop | LMSTools/callbackserver.py:387-389 | Sets `abort` |

## Left out

- `LMSTools/utils.py`: thin wrappers over `urllib.parse.quote`/`unquote`. Percent-encoding is the library's behaviour, not this package's.
- The HTTP transport (`requests.post`, `raise_for_status`, `response.json()`): each request takes its outcome as an argument. The `Content-Type` header is not modelled.
- `LMSPlayer.from_index` is not part of this model. A player is a (name, ref) pair, and `from_index` is a function argument. In the source, `from_index(i, self)` receives the server and makes requests of its own, which move the id on and post payloads. The model does not see those requests.
- Server.LMSServer.GetPlayers: the id advances by at most one and the log of payloads holds only `player count ?`, because the requests `from_index` makes through the server are not modelled.
- Server.LMSServer.ShowPlayersSyncStatus: the id and the log of payloads cover only `player count ?` and `syncgroups ?`, for the same reason.
- `player.request` is not part of this model. A playlist item's commands are recorded in `PlayerRequests.sent`.
- Threads, the `run` loop (including `sleep(5)` and its recursion on EOFError), telnet reads and writes, `__disconnect`, the socket probe of `__check_connection`, and the charset encode/decode: all concurrency and I/O.
- `__login` sends over telnet: `Connect` takes the login outcome as an argument.
- The `unquote` of a received event is library behaviour: `CheckEvent` takes the decoded event as an argument.
- The telnet response given to the echo rule is the line already read from the connection. Without `preserve_encoding` the source unquotes and decodes it first. With `preserve_encoding` it stays quoted and undecoded (bytes). `StripEcho` takes the response as an argument in either case, as text: unquoting and decoding are library behaviour.
- `run` names an undefined `CallbackServer` (LMSTools/callbackserver.py:397, 429). It is outside the modelled sequential core.
- Telnet data is bytes, while the registered events are str. Matching is modelled over strings.
- `event` (the decorator) and `set_parent_class` are one-line wrappers. `AddCallback` and `SetServer` cover them.
- Server.LMSServer.Request: the model sends the command each `_request(params=...)` call evidently intends. The calls as written raise TypeError (see Findings).
- Values.Repr: strings inside lists and dicts are quoted with single quotes, without Python's escaping of quotes and control characters.
- Values.PyInt: `int()` of a string does not accept digit-group underscores or non-ASCII digits. JSON floats are not modelled.
- Artwork.Format: templates with format specs, conversions, attribute or index fields, or numbered positional fields are not modelled. The templates of this package use none of them.
- Artwork.LMSArtworkResolver.GetURL: `size` is a pair of integers, so `h, w = size` failing to unpack is not modelled.
- Python lists are modelled as values. A mutation of a fresh list (`build_cmd`'s `insert`, `cmd_from_action`'s `+=`) therefore cannot reach the caller's data, which matches the source, since both lists are new.
- The event-name constants of `LMSCallbackServer` (`MIXER_ALL`, `CLIENT_NEW` and the rest) are plain strings that no operation treats specially. Only the playlist ones, which a lemma uses, are declared.
- CallbackServer.RemoveAllSpec: the order of the entries left after a removal is given by `Delete`'s definition (later entries move down one place) and is not restated as a lemma.
- CallbackServer.StripEcho: only the suffix property is a contract. Which suffix is given by `StripFullEcho`/`StripQueryEcho` for responses that begin with the echo.

## Findings

| source | as written | input that shows it | evidently intended | confidence | as-written member | corrected member |
|---|---|---|---|---|---|---|
| LMSTools/server.py:107 | `get_sync_groups` calls `_request(params="syncgroups ?")`, but `_request` takes `command` and `player`. The same happens at lines 173, 191, 207, 226-230 and 239 | any call of `get_sync_groups`, `sync`, `ping`, `version`, `rescan` (with no scan running) or `rescanprogress` | send the string as the command | not executed | Server.AsWrittenCallsRaise | Server.LMSServer.GetSyncGroups |
| LMSTools/server.py:190-194 | `ping` catches only `LMSConnectionError`, which nothing raises | a server that cannot be reached: the request's error escapes, and False is never returned | return False when the request fails | not executed | Server.LMSServer.Ping | Server.LMSServer.PingIntended |
| LMSTools/callbackserver.py:210 | `__login` calls `self.request`, but the class has only `__request`, so `__connect` raises AttributeError after connecting | any hostname: `is_connected` never becomes True | log in through `__request`, and set `is_connected` when the login succeeds | not executed | CallbackServer.LMSCallbackServer.ConnectAsWritten | CallbackServer.LMSCallbackServer.Connect |
