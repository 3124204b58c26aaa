/**
 The persisted view state of the Mercator map: what the mount effect reads
 from the URL query and from local storage, what the save effect writes back
 to storage, and the query parameters written by the debounced URL update
 and by the Share button.

 Storage and the query string are maps from names to strings (a missing
 entry is the `null` of `getItem` / `get`). The number and JSON conversions
 the source calls are a `Codec` of functions.
 */
module Settings {
  import opened Wrappers
  import opened Geo
  import opened Themes

  /** The three settings that survive a reload. */
  datatype SavedView = SavedView(position: Position, theme: ThemeKey, showRotation: bool)

  /** The initial component state: position `[0, 0]`, theme `"classic"`, coordinates shown. */
  const Defaults: SavedView := SavedView(Origin, DefaultTheme, true)

  /** `localStorage` contents. */
  type Storage = map<string, string>
  /** The URL's search parameters. */
  type Query = map<string, string>

  const PositionItem: string := "mercatorPosition"
  const ThemeItem: string := "mercatorTheme"
  const ShowRotationItem: string := "mercatorShowRotation"

  const LonParam: string := "lon"
  const LatParam: string := "lat"
  const ThemeParam: string := "theme"

  /**
   `Number.parseFloat`, `Number.prototype.toString`, `JSON.parse` of a stored
   position (None when it throws) and `JSON.stringify` of a position. No
   round-trip is assumed of them in general; the round-trip lemmas assume it
   only at the values they save.
   */
  datatype Codec = Codec(
    parseNumber: string -> real,
    printNumber: real -> string,
    parsePosition: string -> Option<Position>,
    printPosition: Position -> string)

  /** A JavaScript truthiness test on a possibly-null string: present and non-empty. */
  predicate Truthy(m: map<string, string>, name: string) {
    name in m && m[name] != ""
  }

  /** The query carries a usable position: both `lon` and `lat` are present and non-empty. */
  predicate QueryHasPosition(q: Query) {
    Truthy(q, LonParam) && Truthy(q, LatParam)
  }

  /**
   Position on mount: the query if it has both `lon` and `lat`; otherwise a
   stored position that parses; otherwise the current one.
   */
  function LoadPosition(current: Position, q: Query, s: Storage, c: Codec): (p: Position)
    ensures QueryHasPosition(q) ==> p == LonLat(c.parseNumber(q[LonParam]), c.parseNumber(q[LatParam]))
    ensures !QueryHasPosition(q) && Truthy(s, PositionItem) && c.parsePosition(s[PositionItem]).Some? ==>
      p == c.parsePosition(s[PositionItem]).value
    ensures !QueryHasPosition(q) && (!Truthy(s, PositionItem) || c.parsePosition(s[PositionItem]).None?) ==>
      p == current
  {
    if QueryHasPosition(q) then
      LonLat(c.parseNumber(q[LonParam]), c.parseNumber(q[LatParam]))
    else if Truthy(s, PositionItem) then
      c.parsePosition(s[PositionItem]).GetOr(current)
    else
      current
  }

  /** When the query carries a position, storage has no say. */
  lemma QueryPositionIgnoresStorage(current: Position, q: Query, s1: Storage, s2: Storage, c: Codec)
    requires QueryHasPosition(q)
    ensures LoadPosition(current, q, s1, c) == LoadPosition(current, q, s2, c)
  {
  }

  /** A theme key found under `name`, if there is one and it names a theme. */
  function ThemeFrom(m: map<string, string>, name: string): (r: Option<ThemeKey>)
    ensures r.Some? <==> name in m && m[name] in ThemeKeys
    ensures r.Some? ==> KeyName(r.value) == m[name]
  {
    if Truthy(m, name) then ParseTheme(m[name]) else None
  }

  /** Theme on mount: a valid query theme, else a valid stored theme, else the current one. */
  function LoadTheme(current: ThemeKey, q: Query, s: Storage): (t: ThemeKey)
    ensures KeyName(t) in ThemeKeys
    ensures ThemeFrom(q, ThemeParam).Some? ==> t == ThemeFrom(q, ThemeParam).value
    ensures ThemeFrom(q, ThemeParam).None? && ThemeFrom(s, ThemeItem).Some? ==> t == ThemeFrom(s, ThemeItem).value
    ensures ThemeFrom(q, ThemeParam).None? && ThemeFrom(s, ThemeItem).None? ==> t == current
  {
    ParseKeyName(current);
    match ThemeFrom(q, ThemeParam)
    case Some(t) => t
    case None => ThemeFrom(s, ThemeItem).GetOr(current)
  }

  /** `String(b)` for a boolean. */
  function BoolString(b: bool): string {
    if b then "true" else "false"
  }

  /** Show-rotation on mount: a stored value (any string) means "is it `"true"`"; none keeps the current. */
  function LoadShowRotation(current: bool, s: Storage): (b: bool)
    ensures ShowRotationItem in s ==> (b <==> s[ShowRotationItem] == "true")
    ensures ShowRotationItem !in s ==> b == current
  {
    if ShowRotationItem in s then s[ShowRotationItem] == "true" else current
  }

  /** Decoding the string the save effect writes gives the flag back. */
  lemma ShowRotationRoundTrip(b: bool, current: bool, s: Storage)
    ensures LoadShowRotation(current, s[ShowRotationItem := BoolString(b)]) == b
  {
  }

  /** The mount effect, applied to the component's state. */
  function Load(current: SavedView, q: Query, s: Storage, c: Codec): (v: SavedView)
    ensures v.position == LoadPosition(current.position, q, s, c)
    ensures v.theme == LoadTheme(current.theme, q, s)
    ensures v.showRotation == LoadShowRotation(current.showRotation, s)
    ensures (&& !QueryHasPosition(q)
             && (!Truthy(s, PositionItem) || c.parsePosition(s[PositionItem]).None?)
             && ThemeFrom(q, ThemeParam).None? && ThemeFrom(s, ThemeItem).None?
             && ShowRotationItem !in s) ==> v == current
  {
    SavedView(LoadPosition(current.position, q, s, c),
             LoadTheme(current.theme, q, s),
             LoadShowRotation(current.showRotation, s))
  }

  /** The settings a fresh page starts with. */
  function Startup(q: Query, s: Storage, c: Codec): (r: SavedView)
    ensures !QueryHasPosition(q) && (!Truthy(s, PositionItem) || c.parsePosition(s[PositionItem]).None?) ==>
      r.position == Origin
    ensures ThemeFrom(q, ThemeParam).None? && ThemeFrom(s, ThemeItem).None? ==> r.theme == Classic
    ensures ShowRotationItem !in s ==> r.showRotation
  {
    Load(Defaults, q, s, c)
  }

  /** The save effect: all three items are written, every other item is kept. */
  function Save(st: SavedView, s: Storage, c: Codec): (s': Storage)
    ensures s'.Keys == s.Keys + {PositionItem, ThemeItem, ShowRotationItem}
    ensures forall k :: k in s && k !in {PositionItem, ThemeItem, ShowRotationItem} ==> s'[k] == s[k]
    ensures s'[PositionItem] == c.printPosition(st.position)
    ensures s'[ThemeItem] == KeyName(st.theme)
    ensures s'[ShowRotationItem] == BoolString(st.showRotation)
  {
    s[PositionItem := c.printPosition(st.position)]
     [ThemeItem := KeyName(st.theme)]
     [ShowRotationItem := BoolString(st.showRotation)]
  }

  /**
   Saving and then loading on a page whose query names neither a position
   nor a valid theme restores exactly what was saved, provided the JSON of
   the saved position is non-empty and parses back to it (JSON round-trips
   finite doubles only, so the assumption is made for this one value).
   */
  lemma SaveThenLoad(st: SavedView, current: SavedView, q: Query, s: Storage, c: Codec)
    requires c.printPosition(st.position) != ""
    requires c.parsePosition(c.printPosition(st.position)) == Some(st.position)
    requires !QueryHasPosition(q) && ThemeFrom(q, ThemeParam).None?
    ensures Load(current, q, Save(st, s, c), c) == st
  {
    ParseKeyName(st.theme);
  }

  /**
   The query parameters written by the debounced URL update and copied by
   the Share button: `lon`, `lat` and `theme` are set, every other parameter
   is kept.
   */
  function ShareQuery(p: Position, t: ThemeKey, q: Query, c: Codec): (q': Query)
    ensures q'.Keys == q.Keys + {LonParam, LatParam, ThemeParam}
    ensures forall k :: k in q && k !in {LonParam, LatParam, ThemeParam} ==> q'[k] == q[k]
    ensures q'[LonParam] == c.printNumber(p.lon) && q'[LatParam] == c.printNumber(p.lat)
    ensures q'[ThemeParam] == KeyName(t)
  {
    q[LonParam := c.printNumber(p.lon)][LatParam := c.printNumber(p.lat)][ThemeParam := KeyName(t)]
  }

  /**
   Opening a shared link restores its position and theme, whatever the
   recipient has in storage, provided each coordinate prints to a non-empty
   string that parses back to it; show-rotation comes from the recipient's
   storage.
   */
  lemma ShareThenLoad(st: SavedView, current: SavedView, q: Query, s: Storage, c: Codec)
    requires c.printNumber(st.position.lon) != "" && c.printNumber(st.position.lat) != ""
    requires c.parseNumber(c.printNumber(st.position.lon)) == st.position.lon
    requires c.parseNumber(c.printNumber(st.position.lat)) == st.position.lat
    ensures Load(current, ShareQuery(st.position, st.theme, q, c), s, c)
      == SavedView(st.position, st.theme, LoadShowRotation(current.showRotation, s))
  {
    var q' := ShareQuery(st.position, st.theme, q, c);
    assert QueryHasPosition(q');
    ParseKeyName(st.theme);
  }
}
