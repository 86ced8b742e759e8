/** The list adapter that binds feed entries to row views, reusing a
    recycled row's cached widget lookup instead of repeating it. */
module FeedAdapter {

  import opened Options
  import opened MainActivity

  /** A text widget; only its displayed text is modelled. */
  datatype TextView = TextView(text: string)

  /** The three text widgets of a row, looked up once in the row view whose
      identity is `lookedUpIn`. */
  datatype ViewHolder = ViewHolder(
    lookedUpIn: nat,
    tvName: TextView,
    tvArtist: TextView,
    tvSummary: TextView)

  /** A row view, identified by `id`, whose tag may hold a cached holder. */
  datatype Slot = Slot(id: nat, tag: Option<ViewHolder>)

  /** The adapter over the parsed entries. */
  datatype Adapter = Adapter(applications: seq<FeedEntry>)

  /** The returned row view and the next identity the inflater will hand out. */
  datatype Row = Row(view: Slot, nextId: nat)

  /** The number of rows the list shows. */
  function GetCount(a: Adapter): (n: nat)
    ensures n == |a.applications|
  {
    |a.applications|
  }

  /** The slot carries a holder that was looked up in the slot itself. */
  predicate HasOwnHolder(v: Slot) {
    v.tag.Some? && v.tag.value.lookedUpIn == v.id
  }

  /** The slot's cached holder carries the entry's name, artist and summary.
      These are the texts the slot itself displays only when the holder was
      looked up in the slot (`HasOwnHolder`). */
  predicate HolderShows(v: Slot, e: FeedEntry) {
    && v.tag.Some?
    && v.tag.value.tvName.text == e.name
    && v.tag.value.tvArtist.text == e.artist
    && v.tag.value.tvSummary.text == e.summary
  }

  /** A freshly inflated row view, not yet tagged. */
  function Inflate(nextId: nat): (v: Slot)
    ensures v.id == nextId && v.tag.None?
  {
    Slot(nextId, None)
  }

  /** The row for `position`. Without a recycled view a new one is inflated
      (taking identity `nextId`) and a holder is looked up in it and stored
      on its tag; a recycled view is returned itself with the holder its tag
      already carries. Either way the holder then shows the entry's name,
      artist and summary. A recycled view whose tag holds no holder makes
      the cast fail, which is `None`. */
  function GetView(a: Adapter, position: nat, convertView: Option<Slot>, nextId: nat): (r: Option<Row>)
    requires position < |a.applications|
    ensures convertView.None? ==>
      && r.Some?
      && r.value.view.id == nextId
      && r.value.nextId == nextId + 1
      && HasOwnHolder(r.value.view)
    ensures convertView.Some? ==> (r.Some? <==> convertView.value.tag.Some?)
    ensures convertView.Some? && r.Some? ==>
      && r.value.view.id == convertView.value.id
      && r.value.nextId == nextId
      && r.value.view.tag.Some?
      && r.value.view.tag.value.lookedUpIn == convertView.value.tag.value.lookedUpIn
    ensures r.Some? ==> HolderShows(r.value.view, a.applications[position])
  {
    var entry := a.applications[position];
    var found: Option<(Slot, ViewHolder, nat)> :=
      match convertView
      case None =>
        var v := Inflate(nextId);
        Some((v, ViewHolder(v.id, TextView(""), TextView(""), TextView("")), nextId + 1))
      case Some(v) =>
        match v.tag
        case Some(h) => Some((v, h, nextId))
        case None => None;
    match found
    case None => None
    case Some((v, h, next)) =>
      var bound := h.(tvName := TextView(entry.name), tvArtist := TextView(entry.artist),
                      tvSummary := TextView(entry.summary));
      Some(Row(v.(tag := Some(bound)), next))
  }

  /** Every view the adapter hands out carries its own holder, so passing it
      back for recycling never fails and keeps the same holder. */
  lemma GetViewKeepsOwnHolder(a: Adapter, position: nat, convertView: Option<Slot>, nextId: nat)
    requires position < |a.applications|
    requires convertView.Some? ==> HasOwnHolder(convertView.value)
    ensures GetView(a, position, convertView, nextId).Some?
    ensures HasOwnHolder(GetView(a, position, convertView, nextId).value.view)
  {
  }

  /** Binding changes only the three displayed fields, so the release date
      and image URL of an entry never reach the row. */
  lemma GetViewIgnoresUndisplayedFields(a: Adapter, b: Adapter, position: nat, convertView: Option<Slot>, nextId: nat)
    requires position < |a.applications| == |b.applications|
    requires a.applications[position].name == b.applications[position].name
    requires a.applications[position].artist == b.applications[position].artist
    requires a.applications[position].summary == b.applications[position].summary
    ensures GetView(a, position, convertView, nextId) == GetView(b, position, convertView, nextId)
  {
  }

  /** A list that recycles its one row view through a series of positions
      inflates it once, looks its widgets up once, and ends up showing the
      last position's entry. */
  method Scroll(a: Adapter, positions: seq<nat>, nextId: nat) returns (view: Slot, next: nat)
    requires |positions| > 0
    requires forall i :: 0 <= i < |positions| ==> positions[i] < |a.applications|
    ensures next == nextId + 1
    ensures view.id == nextId && HasOwnHolder(view)
    ensures HolderShows(view, a.applications[positions[|positions| - 1]])
  {
    var first := GetView(a, positions[0], None, nextId);
    view, next := first.value.view, first.value.nextId;
    var i := 1;
    while i < |positions|
      invariant 1 <= i <= |positions|
      invariant next == nextId + 1
      invariant view.id == nextId && HasOwnHolder(view)
      invariant HolderShows(view, a.applications[positions[i - 1]])
    {
      var row := GetView(a, positions[i], Some(view), next);
      view, next := row.value.view, row.value.nextId;
      i := i + 1;
    }
  }
}
