/** The feed-selection logic of the main screen: the feed entry record, the
    fixed feed templates, the options-menu state machine that decides when a
    new download starts, and runs of that machine over event sequences. */
module MainActivity {

  import opened Options
  import opened Int32
  import UrlFormat
  import Decimal

  /** One parsed feed item; every field starts out empty. */
  datatype FeedEntry = FeedEntry(
    name: string,
    artist: string,
    releaseDate: string,
    summary: string,
    imageURL: string)

  /** A freshly constructed entry, before the parser fills any field. */
  function NewFeedEntry(): (e: FeedEntry)
    ensures e.name == "" && e.artist == "" && e.releaseDate == ""
    ensures e.summary == "" && e.imageURL == ""
  {
    FeedEntry("", "", "", "", "")
  }

  // Keys under which the configuration is saved across recreation.
  const FeedUrlKey: string := "FEED_URL"
  const FeedLimitKey: string := "FEED_LIMIT"

  /** The three feed categories offered by the options menu. */
  datatype Category = Free | Paid | Songs

  // Every feed URL template is the store's RSS address, a category path,
  // and a `limit=%d` segment receiving the number of entries.
  const FeedHost: string := "http://ax.itunes.apple.com"
  const FeedPath: string := "/WebObjects/MZStoreServices.woa/ws/RSS/"
  const LimitSegment: string := "/limit="
  const FeedFormat: string := "/xml"

  function CategoryPath(c: Category): string {
    match c
    case Free => "topfreeapplications"
    case Paid => "toppaidapplications"
    case Songs => "topsongs"
  }

  /** The text of a category's template before the `%d` placeholder. */
  function TemplatePrefix(c: Category): string {
    FeedHost + FeedPath + CategoryPath(c) + LimitSegment
  }

  /** The URL template of each category; `%d` receives the limit. */
  function Template(c: Category): string {
    TemplatePrefix(c) + "%d" + FeedFormat
  }

  /** The default template is the free-applications one. */
  const DefaultFeedUrl: string := Template(Free)
  const DefaultFeedLimit: int32 := 10

  /** The two radio items of the limit group. */
  datatype LimitItem = Menu10 | Menu25

  /** The feed configuration held by the activity: a template and a limit. */
  datatype Config = Config(feedUrl: string, feedLimit: int32)

  /** The field initialisers, used when there is nothing to restore. */
  const InitialConfig: Config := Config(DefaultFeedUrl, DefaultFeedLimit)

  /** The configuration together with the limit item the menu shows checked
      (the radio group always has exactly one checked item). */
  datatype State = State(config: Config, checked: LimitItem)

  /** A selected menu item. `Unknown` is any item the activity does not
      handle itself. */
  datatype Event =
    | SelectCategory(category: Category)
    | SelectLimit(item: LimitItem)
    | Refresh
    | Unknown(itemId: int)

  /** A download the activity starts: the template and the limit it is
      filled with. */
  datatype Request = Request(template: string, limit: int32) {
    /** The URL handed to the download task. */
    function Url(): Option<string> {
      UrlFormat.Format(template, limit as int)
    }
  }

  datatype Transition = Transition(next: State, download: Option<Request>)

  /** The limit item checked when the options menu is created. */
  function CreateOptionsMenu(c: Config): (s: State)
    ensures s.config == c
    ensures s.checked == Menu10 <==> c.feedLimit == 10
  {
    State(c, if c.feedLimit == 10 then Menu10 else Menu25)
  }

  /** Handling of one selected menu item. A category replaces the template;
      the unchecked limit item becomes checked and swaps the limit between
      10 and 25; a download of the resulting configuration starts exactly
      when it differs from the old one or the item is Refresh. */
  function Step(s: State, e: Event): (t: Transition)
    ensures e.SelectCategory? ==>
      t.next == State(Config(Template(e.category), s.config.feedLimit), s.checked)
    ensures e.SelectLimit? && e.item != s.checked ==>
      t.next == State(Config(s.config.feedUrl, ComplementTo35(s.config.feedLimit)), e.item)
    ensures e.SelectLimit? && e.item == s.checked ==> t.next == s
    ensures e.Refresh? || e.Unknown? ==> t.next == s
    ensures t.download.Some? <==> t.next.config != s.config || e.Refresh?
    ensures t.download.Some? ==>
      t.download.value == Request(t.next.config.feedUrl, t.next.config.feedLimit)
  {
    if e.Unknown? then Transition(s, None)
    else
      var next :=
        match e
        case SelectCategory(c) => s.(config := s.config.(feedUrl := Template(c)))
        case SelectLimit(item) =>
          if item != s.checked then
            State(s.config.(feedLimit := ComplementTo35(s.config.feedLimit)), item)
          else s
        case Refresh => s;
      var changed := next.config.feedUrl != s.config.feedUrl || next.config.feedLimit != s.config.feedLimit;
      if changed || e.Refresh? then
        Transition(next, Some(Request(next.config.feedUrl, next.config.feedLimit)))
      else Transition(next, None)
  }

  /** The limit is one of the two menu values and the checked radio item
      names it. */
  predicate Consistent(s: State) {
    && (s.config.feedLimit == 10 || s.config.feedLimit == 25)
    && (s.checked == Menu10 <==> s.config.feedLimit == 10)
  }

  /** The template has the single `%d` the download URL is built from. */
  predicate WellFormed(s: State) {
    UrlFormat.SinglePlaceholder(s.config.feedUrl)
  }

  function LimitValue(item: LimitItem): int32 {
    if item == Menu10 then 10 else 25
  }

  /** A menu created for a limit of 10 or 25 starts consistent. */
  lemma CreateOptionsMenuConsistent(c: Config)
    requires c.feedLimit == 10 || c.feedLimit == 25
    ensures Consistent(CreateOptionsMenu(c))
    ensures LimitValue(CreateOptionsMenu(c).checked) == c.feedLimit
  {
  }

  /** Every event keeps the limit in {10, 25} and the radio check in step
      with it. */
  lemma StepPreservesConsistent(s: State, e: Event)
    requires Consistent(s)
    ensures Consistent(Step(s, e).next)
    ensures LimitValue(Step(s, e).next.checked) == Step(s, e).next.config.feedLimit
  {
  }

  /** In a consistent state, selecting a limit item makes the limit that
      item's value, downloading only if it was not already checked. */
  lemma SelectLimitSetsLimit(s: State, item: LimitItem)
    requires Consistent(s)
    ensures Step(s, SelectLimit(item)).next.config.feedLimit == LimitValue(item)
    ensures Step(s, SelectLimit(item)).download.Some? <==> item != s.checked
  {
  }

  lemma TemplatePrefixHasNoPercent(c: Category)
    ensures '%' !in TemplatePrefix(c)
  {
    assert '%' !in FeedHost;
    assert '%' !in FeedPath;
    assert '%' !in CategoryPath(c);
    assert '%' !in LimitSegment;
  }

  /** Each category template has exactly one placeholder. */
  lemma TemplateWellFormed(c: Category)
    ensures UrlFormat.SinglePlaceholder(Template(c))
  {
    TemplatePrefixHasNoPercent(c);
    assert '%' !in FeedFormat;
    UrlFormat.FormatSubstitutes(TemplatePrefix(c), FeedFormat, 0);
  }

  /** Filling a category template with `n` writes the numeral of `n`
      between the category's prefix and the `/xml` ending. */
  lemma TemplateFormat(c: Category, n: int)
    ensures UrlFormat.SinglePlaceholder(Template(c))
    ensures UrlFormat.Format(Template(c), n) == Some(TemplatePrefix(c) + Decimal.Render(n) + FeedFormat)
  {
    TemplatePrefixHasNoPercent(c);
    assert '%' !in FeedFormat;
    UrlFormat.FormatSubstitutes(TemplatePrefix(c), FeedFormat, n);
  }

  /** Templates stay well formed, so every download of a well-formed state
      has a URL, with the new limit written where the placeholder was. */
  lemma StepDownloadUrl(s: State, e: Event)
    requires WellFormed(s)
    ensures WellFormed(Step(s, e).next)
    ensures Step(s, e).download.Some? ==>
      var r := Step(s, e).download.value;
      r.Url() == Some(UrlFormat.Prefix(r.template) + Decimal.Render(r.limit as int) + UrlFormat.Suffix(r.template))
  {
    if e.SelectCategory? {
      TemplateWellFormed(e.category);
    }
    var t := Step(s, e);
    if t.download.Some? {
      var r := t.download.value;
      UrlFormat.PrefixSuffixSplit(r.template);
      UrlFormat.FormatSubstitutes(UrlFormat.Prefix(r.template), UrlFormat.Suffix(r.template), r.limit as int);
    }
  }

  /** `u` ends with `suffix`. */
  predicate EndsWith(u: string, suffix: string) {
    |suffix| <= |u| && u[|u| - |suffix|..] == suffix
  }

  lemma EndsWithAppended(a: string, x: string)
    ensures EndsWith(a + x, x)
  {
    assert (a + x)[|a|..] == x;
  }

  /** A filled template ends in `limit=`, the numeral, and `/xml`, whatever
      precedes the limit segment. */
  lemma FilledEnding(a: string, d: string)
    ensures EndsWith(a + LimitSegment + d + FeedFormat, "limit=" + d + "/xml")
  {
    var x := "limit=" + d + "/xml";
    assert LimitSegment == "/" + "limit=";
    assert a + LimitSegment + d + FeedFormat == (a + "/") + x;
    EndsWithAppended(a + "/", x);
  }

  /** A category URL filled with `n` ends in `limit=`, the numeral of `n`,
      and `/xml`. */
  lemma CategoryUrlEnding(c: Category, n: int)
    ensures UrlFormat.Format(Template(c), n).Some?
    ensures EndsWith(UrlFormat.Format(Template(c), n).value, "limit=" + Decimal.Render(n) + "/xml")
  {
    TemplateFormat(c, n);
    FilledEnding(FeedHost + FeedPath + CategoryPath(c), Decimal.Render(n));
  }

  lemma RenderTen()
    ensures "limit=" + Decimal.Render(10) + "/xml" == "limit=10/xml"
  {
    assert Decimal.Digits(1) == "1";
  }

  /** The default template filled with the default limit is the free
      applications feed and ends in `limit=10/xml`. */
  lemma DefaultUrlEndsWithLimit10()
    ensures Request(DefaultFeedUrl, DefaultFeedLimit).Url() == UrlFormat.Format(Template(Free), 10)
    ensures Request(DefaultFeedUrl, DefaultFeedLimit).Url().Some?
    ensures EndsWith(Request(DefaultFeedUrl, DefaultFeedLimit).Url().value, "limit=10/xml")
  {
    CategoryUrlEnding(Free, 10);
    RenderTen();
  }

  /** Picking the category already shown, or the limit item already checked,
      changes nothing and downloads nothing. */
  lemma ReselectIsNoOp(s: State, e: Event)
    requires (e.SelectCategory? && s.config.feedUrl == Template(e.category))
          || (e.SelectLimit? && e.item == s.checked)
    ensures Step(s, e) == Transition(s, None)
  {
  }

  /** The same category twice in a row downloads at most once. */
  lemma SameCategoryTwiceDownloadsOnce(s: State, c: Category)
    ensures Step(Step(s, SelectCategory(c)).next, SelectCategory(c)).download == None
  {
  }

  /** Selecting the unchecked limit item and then the previously checked one
      restores the original state, with a download at each step. */
  lemma ToggleLimitTwiceRestores(s: State, item: LimitItem)
    requires item != s.checked
    ensures var t1 := Step(s, SelectLimit(item));
      var t2 := Step(t1.next, SelectLimit(s.checked));
      && t2.next == s
      && t1.download.Some? && t2.download.Some?
  {
  }

  /** Refresh keeps the configuration and always downloads it; an item the
      activity does not handle does nothing. */
  lemma RefreshAndUnknown(s: State, id: int)
    ensures Step(s, Refresh) == Transition(s, Some(Request(s.config.feedUrl, s.config.feedLimit)))
    ensures Step(s, Unknown(id)) == Transition(s, None)
  {
  }

  /** The outcome of a sequence of menu events: the final state and every
      download started, in order. */
  datatype Trace = Trace(final: State, downloads: seq<Request>)

  function Run(s: State, es: seq<Event>): (r: Trace)
    decreases |es|
  {
    if |es| == 0 then Trace(s, [])
    else
      var t := Step(s, es[0]);
      var rest := Run(t.next, es[1..]);
      match t.download
      case Some(req) => Trace(rest.final, [req] + rest.downloads)
      case None => rest
  }

  function CountRefresh(es: seq<Event>): (n: nat)
    ensures n <= |es|
  {
    if |es| == 0 then 0
    else (if es[0].Refresh? then 1 else 0) + CountRefresh(es[1..])
  }

  /** Consistency holds after any sequence of events. */
  lemma {:induction false} RunPreservesConsistent(s: State, es: seq<Event>)
    requires Consistent(s)
    ensures Consistent(Run(s, es).final)
    decreases |es|
  {
    if |es| > 0 {
      StepPreservesConsistent(s, es[0]);
      RunPreservesConsistent(Step(s, es[0]).next, es[1..]);
    }
  }

  /** Each event starts at most one download and every Refresh starts one;
      downloads are never merged or cancelled. */
  lemma {:induction false} RunDownloadCount(s: State, es: seq<Event>)
    ensures CountRefresh(es) <= |Run(s, es).downloads| <= |es|
    decreases |es|
  {
    if |es| > 0 {
      RunDownloadCount(Step(s, es[0]).next, es[1..]);
    }
  }

  /** A second Refresh while the first download may still be running starts
      another download of the same URL: nothing is deduplicated. */
  lemma RefreshTwiceDownloadsTwice(s: State)
    ensures var r := Request(s.config.feedUrl, s.config.feedLimit);
      Run(s, [Refresh, Refresh]) == Trace(s, [r, r])
  {
  }

  /** From the initial menu, switching to 25 and back to 10 downloads exactly
      twice, first the top 25 and then the top 10 free applications. */
  lemma SwitchLimitScenario()
    ensures var s := CreateOptionsMenu(InitialConfig);
      Run(s, [SelectLimit(Menu25), SelectLimit(Menu10)])
        == Trace(s, [Request(DefaultFeedUrl, 25), Request(DefaultFeedUrl, 10)])
  {
  }
}
