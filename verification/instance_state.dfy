/** Keeping the feed configuration across recreation of the activity: the
    saved-state bundle, what is written into it, and how the configuration
    and the first download are recovered from it on creation. */
module InstanceState {

  import opened Options
  import opened Int32
  import opened MainActivity

  /** A bundle maps string keys to typed values; only the two value types
      the activity stores are modelled. */
  datatype BundleValue = StringValue(str: string) | IntValue(number: int32)

  type Bundle = map<string, BundleValue>

  /** `getString(key, default)`: the stored string, or `default` when the
      key is absent or holds a value of another type. */
  function GetString(b: Bundle, key: string, default: string): (r: string)
    ensures key in b && b[key].StringValue? ==> r == b[key].str
    ensures !(key in b && b[key].StringValue?) ==> r == default
  {
    if key in b then
      match b[key]
      case StringValue(v) => v
      case IntValue(_) => default
    else default
  }

  /** `getInt(key, default)`: the stored integer, or `default` when the key
      is absent or holds a value of another type. */
  function GetInt(b: Bundle, key: string, default: int32): (r: int32)
    ensures key in b && b[key].IntValue? ==> r == b[key].number
    ensures !(key in b && b[key].IntValue?) ==> r == default
  {
    if key in b then
      match b[key]
      case IntValue(v) => v
      case StringValue(_) => default
    else default
  }

  /** Saving the instance state. The superclass first writes the view
      hierarchy's entries (`viewState`, produced by code outside this model)
      into the bundle; then the template and the limit are written under
      their keys, overriding any entry of the same key. Every other entry is
      kept, and a missing bundle stays missing. */
  function SaveInstanceState(outState: Option<Bundle>, viewState: Bundle, c: Config): (r: Option<Bundle>)
    ensures r.Some? <==> outState.Some?
    ensures r.Some? ==> r.value.Keys == outState.value.Keys + viewState.Keys + {FeedUrlKey, FeedLimitKey}
    ensures r.Some? ==> GetString(r.value, FeedUrlKey, "") == c.feedUrl
    ensures r.Some? ==> GetInt(r.value, FeedLimitKey, 0) == c.feedLimit
    ensures r.Some? ==>
      forall k :: k in viewState && k != FeedUrlKey && k != FeedLimitKey ==> r.value[k] == viewState[k]
    ensures r.Some? ==>
      forall k :: k in outState.value && k !in viewState && k != FeedUrlKey && k != FeedLimitKey
        ==> r.value[k] == outState.value[k]
  {
    match outState
    case None => None
    case Some(b) =>
      assert FeedUrlKey != FeedLimitKey;
      Some((b + viewState)[FeedUrlKey := StringValue(c.feedUrl)][FeedLimitKey := IntValue(c.feedLimit)])
  }

  /** The configuration in effect once creation has run: the field
      initialisers when there is no saved state, otherwise each value read
      back with the default as fallback. */
  function RestoreConfig(saved: Option<Bundle>): (c: Config)
    ensures saved.None? ==> c == InitialConfig
    ensures saved.Some? ==> c.feedUrl == GetString(saved.value, FeedUrlKey, DefaultFeedUrl)
    ensures saved.Some? ==> c.feedLimit == GetInt(saved.value, FeedLimitKey, DefaultFeedLimit)
  {
    match saved
    case None => InitialConfig
    case Some(b) => Config(GetString(b, FeedUrlKey, DefaultFeedUrl), GetInt(b, FeedLimitKey, DefaultFeedLimit))
  }

  /** Creation restores the configuration and always starts one download of
      it. */
  datatype Launch = Launch(config: Config, download: Request)

  function OnCreate(saved: Option<Bundle>): (l: Launch)
    ensures l.config == RestoreConfig(saved)
    ensures l.download == Request(l.config.feedUrl, l.config.feedLimit)
  {
    var c := RestoreConfig(saved);
    Launch(c, Request(c.feedUrl, c.feedLimit))
  }

  /** Saving into any bundle, whatever the superclass adds, and restoring
      from it gives back the same configuration. */
  lemma SaveThenRestore(b: Bundle, viewState: Bundle, c: Config)
    ensures RestoreConfig(SaveInstanceState(Some(b), viewState, c)) == c
  {
  }

  /** A key missing from the saved bundle falls back to its default. */
  lemma RestoreMissingKeys(b: Bundle)
    ensures FeedUrlKey !in b ==> RestoreConfig(Some(b)).feedUrl == DefaultFeedUrl
    ensures FeedLimitKey !in b ==> RestoreConfig(Some(b)).feedLimit == 10
  {
  }

  /** Recreating the activity from its saved state and building the menu
      again reproduces a consistent state exactly, radio check included. */
  lemma RecreationRestoresState(s: State, b: Bundle, viewState: Bundle)
    requires Consistent(s)
    ensures CreateOptionsMenu(RestoreConfig(SaveInstanceState(Some(b), viewState, s.config))) == s
  {
  }

  /** A first launch downloads the top ten free applications. */
  lemma FirstLaunchDownload()
    ensures OnCreate(None).download == Request(Template(Free), 10)
    ensures OnCreate(None).download.Url().Some?
    ensures EndsWith(OnCreate(None).download.Url().value, "limit=10/xml")
  {
    DefaultUrlEndsWithLimit10();
  }
}
