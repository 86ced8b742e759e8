# Top10Downloader feed selection and row binding, in Dafny

This project models the two pieces of logic in the Top10Downloader Android
app that are not platform plumbing:

- **Feed selection** (`MainActivity.kt`). The activity holds a feed URL
  template (one of three store categories, with a `%d` for the number of
  entries) and a limit (10 or 25). The options menu offers the categories,
  a radio group with the two limits, and Refresh. Each selected item yields
  a new state and possibly a download of the template filled with the limit.
  The configuration is saved into the instance-state bundle and restored,
  with fixed defaults, when the activity is recreated. The menu's initial
  radio check follows the limit.
- **Row binding** (`FeedAdapter.kt`). `getView` either inflates a new row
  view and caches a `ViewHolder` (the looked-up text widgets) on its tag,
  or reuses a recycled row view and its cached holder. It then writes the
  entry's name, artist and summary into the holder.

Modules:

- `Options`: the optional value used for nullable inputs and "no download".
- `Decimal`: the decimal rendering of integers (`%d`) and its inverse.
- `Int32`: Kotlin's 32-bit `Int`, where `35 - feedLimit` is computed.
- `UrlFormat`: `String.format` restricted to templates with one `%d`.
- `MainActivity`: `FeedEntry`, the constants and templates, the menu state
  machine `Step`, and runs of it over event sequences.
- `InstanceState`: the bundle, `onSaveInstanceState`, and the restore and
  first download in `onCreate`.
- `FeedAdapter`: row views ("slots"), holders, `getCount` and `getView`.

Two behaviours one might expect of such an app are absent from the code,
and the model follows the code:

- `downloadUrl` never deduplicates or cancels a download in flight. Every
  Refresh and every configuration change starts a new task. The only
  suppression compares the configuration with the one before the event.
  `RunDownloadCount` and `RefreshTwiceDownloadsTwice` state the
  no-deduplication half. The model has no running task, so no lemma states
  the no-cancellation half; it follows from `downloadUrl`
  (`MainActivity.kt`, lines 71-77) only replacing its reference to the
  running task with the new one.
- An empty download is only logged. It is not turned into an error. That
  code path is outside this model (see "Left out").

## Model

| member | source | states |
|---|---|---|
| MainActivity.NewFeedEntry | app/src/main/java/com/limbo/top10downloader/MainActivity.kt:20-25 | a freshly constructed entry has all five fields empty |
| MainActivity.TemplateFormat | app/src/main/java/com/limbo/top10downloader/MainActivity.kt:99-104 | each category template has exactly one placeholder, and filling it puts the limit's numeral between the category prefix and `/xml` |
| MainActivity.TemplateWellFormed | app/src/main/java/com/limbo/top10downloader/MainActivity.kt:99-104 | each category template has exactly one `%d` placeholder |
| MainActivity.CategoryUrlEnding | app/src/main/java/com/limbo/top10downloader/MainActivity.kt:127 | a category template filled with a limit ends in `limit=`, the limit's numeral, and `/xml` |
| MainActivity.DefaultUrlEndsWithLimit10 | app/src/main/java/com/limbo/top10downloader/MainActivity.kt:38-39 | the default template with the default limit is the filled free-applications template, and it ends in `limit=10/xml` |
| MainActivity.CreateOptionsMenu | app/src/main/java/com/limbo/top10downloader/MainActivity.kt:80-90 | the menu is built for the current configuration; the 10 item is checked exactly when the limit is 10, otherwise the 25 item |
| MainActivity.CreateOptionsMenuConsistent | app/src/main/java/com/limbo/top10downloader/MainActivity.kt:83-87 | for a limit of 10 or 25 the new menu is consistent: the checked item's value is the limit |
| MainActivity.Step | app/src/main/java/com/limbo/top10downloader/MainActivity.kt:95-132 | a category sets its template and keeps limit and check; the unchecked limit item becomes checked and the limit becomes `35 - limit`; the checked one, Refresh and unhandled items keep the state; a download starts exactly when the configuration changed or the item is Refresh, and it targets the new configuration |
| MainActivity.StepPreservesConsistent | app/src/main/java/com/limbo/top10downloader/MainActivity.kt:105-115 | from a consistent state every event keeps the limit in {10, 25} and the checked item matching it |
| MainActivity.SelectLimitSetsLimit | app/src/main/java/com/limbo/top10downloader/MainActivity.kt:105-115 | in a consistent state, selecting a limit item makes the limit that item's value, and downloads exactly when the item was not checked |
| MainActivity.StepDownloadUrl | app/src/main/java/com/limbo/top10downloader/MainActivity.kt:123-127 | templates stay well formed, and every download's URL is the template with the new limit's numeral in place of `%d` |
| MainActivity.ReselectIsNoOp | app/src/main/java/com/limbo/top10downloader/MainActivity.kt:123-130 | selecting the category already shown, or the limit item already checked, changes nothing and downloads nothing |
| MainActivity.SameCategoryTwiceDownloadsOnce | app/src/main/java/com/limbo/top10downloader/MainActivity.kt:96-104 | the same category selected twice in a row downloads nothing the second time |
| MainActivity.ToggleLimitTwiceRestores | app/src/main/java/com/limbo/top10downloader/MainActivity.kt:105-115 | selecting the other limit item and then the original one restores the original state, downloading at each step |
| MainActivity.RefreshAndUnknown | app/src/main/java/com/limbo/top10downloader/MainActivity.kt:116-121 | Refresh keeps the state and downloads the current configuration; an unhandled item keeps the state and downloads nothing |
| MainActivity.RunPreservesConsistent | app/src/main/java/com/limbo/top10downloader/MainActivity.kt:95-132 | consistency holds after any sequence of menu events |
| MainActivity.RunDownloadCount | app/src/main/java/com/limbo/top10downloader/MainActivity.kt:71-77 | over any event sequence, at least one download per Refresh and at most one per event |
| MainActivity.RefreshTwiceDownloadsTwice | app/src/main/java/com/limbo/top10downloader/MainActivity.kt:71-77 | two Refreshes start two downloads of the same URL; nothing is deduplicated |
| MainActivity.SwitchLimitScenario | app/src/main/java/com/limbo/top10downloader/MainActivity.kt:105-130 | from the initial menu, switching to 25 and back to 10 downloads the top 25 and then the top 10, exactly once each |
| Int32.ComplementTo35 | app/src/main/java/com/limbo/top10downloader/MainActivity.kt:110 | `35 - limit` on 32-bit Int: exact unless the limit is within 35 of the smallest Int, wrapped by 2^32 then |
| Int32.ComplementTo35Involution | app/src/main/java/com/limbo/top10downloader/MainActivity.kt:105-115 | swapping the limit twice restores it for every 32-bit value |
| UrlFormat.Format | app/src/main/java/com/limbo/top10downloader/MainActivity.kt:67 | a template without `%` comes back unchanged; the result is missing exactly for templates outside the single-`%d` fragment |
| UrlFormat.FormatSubstitutes | app/src/main/java/com/limbo/top10downloader/MainActivity.kt:66-67 | filling `p + "%d" + q` yields `p`, the numeral of the limit, then `q` |
| UrlFormat.ExtractFormat | app/src/main/java/com/limbo/top10downloader/MainActivity.kt:127 | reading the limit back out of a filled URL gives the limit that was filled in |
| UrlFormat.FormatInjective | app/src/main/java/com/limbo/top10downloader/MainActivity.kt:123-127 | for one template, two limits give the same URL exactly when they are equal |
| Decimal.ParseRender | app/src/main/java/com/limbo/top10downloader/MainActivity.kt:67 | parsing the `%d` rendering of an integer gives the integer back |
| Decimal.RenderInjective | app/src/main/java/com/limbo/top10downloader/MainActivity.kt:67 | two integers render to the same numeral exactly when they are equal |
| InstanceState.GetString | app/src/main/java/com/limbo/top10downloader/MainActivity.kt:61 | the stored string, or the default when the key is missing or holds another type |
| InstanceState.GetInt | app/src/main/java/com/limbo/top10downloader/MainActivity.kt:62 | the stored integer, or the default when the key is missing or holds another type |
| InstanceState.SaveInstanceState | app/src/main/java/com/limbo/top10downloader/MainActivity.kt:143-151 | the superclass's view-state entries are merged in first; then template and limit are readable under their keys, every other entry is kept, and a missing bundle stays missing |
| InstanceState.RestoreConfig | app/src/main/java/com/limbo/top10downloader/MainActivity.kt:58-63 | with no saved state the field initialisers apply; otherwise each value is read back with its default as fallback |
| InstanceState.OnCreate | app/src/main/java/com/limbo/top10downloader/MainActivity.kt:51-69 | creation restores the configuration and always starts one download of it |
| InstanceState.SaveThenRestore | app/src/main/java/com/limbo/top10downloader/MainActivity.kt:143-148 | saving into any bundle, whatever view state the superclass adds, and restoring gives back the same configuration |
| InstanceState.RestoreMissingKeys | app/src/main/java/com/limbo/top10downloader/MainActivity.kt:36-39 | a missing URL key restores the default template and a missing limit key restores 10 |
| InstanceState.RecreationRestoresState | app/src/main/java/com/limbo/top10downloader/MainActivity.kt:83-87 | save, restore and menu creation reproduce a consistent state exactly, radio check included |
| InstanceState.FirstLaunchDownload | app/src/main/java/com/limbo/top10downloader/MainActivity.kt:48-49 | a launch without saved state downloads the free-applications template filled with 10, whose URL ends in `limit=10/xml` |
| FeedAdapter.GetCount | app/src/main/java/com/limbo/top10downloader/FeedAdapter.kt:24-26 | the row count is the number of entries |
| FeedAdapter.GetView | app/src/main/java/com/limbo/top10downloader/FeedAdapter.kt:28-58 | without a recycled view exactly one view is inflated and carries a holder looked up in itself; a recycled view is returned itself with its own cached holder and nothing is inflated; a recycled view without a holder fails; the holder then carries the entry's name, artist and summary |
| FeedAdapter.GetViewKeepsOwnHolder | app/src/main/java/com/limbo/top10downloader/FeedAdapter.kt:35-45 | every returned view carries its own holder, so recycling a returned view never fails |
| FeedAdapter.GetViewIgnoresUndisplayedFields | app/src/main/java/com/limbo/top10downloader/FeedAdapter.kt:51-55 | the release date and image URL never affect the bound row |
| FeedAdapter.Scroll | app/src/main/java/com/limbo/top10downloader/FeedAdapter.kt:32-45 | one row view recycled through any series of positions is inflated once, keeps the holder looked up in it, and shows the last position's entry |

## Left out

- The download task (`DownloadData`: `doInBackground`, `onPostExecute`), `downloadXML` and the cancellation in `onDestroy`: background threading and network I/O. A download is modelled only as the `Request` that `downloadUrl` is given.
- The empty-download check in `doInBackground`: it only logs, and the download task is not modelled.
- The XML parser `ParseApplications`: it is not part of this model, so the entries bound by the adapter are an input.
- Logging, the Boolean results of the menu callbacks, and the value of `super.onOptionsItemSelected`.
- Menu inflation: the radio group is modelled as the one checked limit item; menu events arrive only after the menu exists.
- `FeedEntry.toString`: string formatting only.
- `LayoutInflater`, `TextView` and `ListView` wiring: a row view is an identity and a tag, a text view is its text, and a freshly looked-up text view starts empty because its layout text is not known here.
- Bundle values of types other than string and 32-bit integer.
- What `super.onSaveInstanceState` writes: the view hierarchy's entries are a parameter of `SaveInstanceState`, since that code is not part of this model.
- UrlFormat.Format: returns nothing for a template with a `%` other than a single `%d` (such as `%%` or `%s`), which `String.format` would convert or reject; only the single-`%d` case is modelled.
- Decimal.Render: writes ASCII digits, as in the default locale; locales with other digit shapes are not modelled.
- Commented-out code in both files.
