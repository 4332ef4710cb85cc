/** The display rules of frontend/src/components/NotesList.jsx. */
module NotesList {

  import opened Wrappers
  import opened Seqs
  import opened ClientModel

  /** `truncateContent(content, 150)`. */
  function TruncateContent(content: string): (r: string)
    ensures |content| <= 150 ==> r == content
    ensures |content| > 150 ==> |r| == 153 && r[..150] == content[..150] && r[150..] == "..."
  {
    if |content| <= 150 then content else content[..150] + "..."
  }

  /** `getStatusIcon`: defined for every status, with a default icon. */
  function StatusIcon(status: Option<string>): (icon: string)
    ensures status == Some("draft") ==> icon == "📝"
    ensures status == Some("published") ==> icon == "✅"
    ensures status == Some("archived") ==> icon == "📦"
    ensures !(status in {Some("draft"), Some("published"), Some("archived")}) ==> icon == "📄"
  {
    if status == Some("draft") then "📝"
    else if status == Some("published") then "✅"
    else if status == Some("archived") then "📦"
    else "📄"
  }

  /** `getStatusText`: defined for every status, with a default text. */
  function StatusText(status: Option<string>): (text: string)
    ensures status == Some("draft") ==> text == "Borrador"
    ensures status == Some("published") ==> text == "Publicada"
    ensures status == Some("archived") ==> text == "Archivada"
    ensures !(status in {Some("draft"), Some("published"), Some("archived")}) ==> text == "Sin estado"
  {
    if status == Some("draft") then "Borrador"
    else if status == Some("published") then "Publicada"
    else if status == Some("archived") then "Archivada"
    else "Sin estado"
  }

  /** The three known statuses have three different icons and texts. */
  lemma KnownStatusesDistinct(a: string, b: string)
    requires a in {"draft", "published", "archived"} && b in {"draft", "published", "archived"} && a != b
    ensures StatusIcon(Some(a)) != StatusIcon(Some(b)) && StatusText(Some(a)) != StatusText(Some(b))
    ensures StatusIcon(Some(a)) != StatusIcon(None) && StatusText(Some(a)) != StatusText(None)
  {
  }

  /** The tag chips: the first three tags, in order. */
  function VisibleTags(tags: seq<string>): (shown: seq<string>)
    ensures |shown| == Min(|tags|, 3) && shown == tags[..|shown|]
  {
    Take(tags, 3)
  }

  /** The "+n" badge: present only for more than three tags, counting the hidden ones. */
  function ExtraTagCount(tags: seq<string>): (badge: Option<nat>)
    ensures badge.Some? <==> |tags| > 3
    ensures badge.Some? ==> badge.value == |tags| - 3
  {
    if |tags| > 3 then Some(|tags| - 3) else None
  }

  /** Every tag is either shown or counted by the badge. */
  lemma TagsAccountedFor(tags: seq<string>)
    ensures |VisibleTags(tags)| + ExtraTagCount(tags).GetOr(0) == |tags|
  {
  }

  /** The tag row appears only for a present, non-empty tag list. */
  function TagRow(tags: Option<seq<string>>): (row: Option<(seq<string>, Option<nat>)>)
    ensures row.Some? <==> tags.Some? && tags.value != []
    ensures row.Some? ==> row.value == (VisibleTags(tags.value), ExtraTagCount(tags.value))
  {
    if tags.Some? && |tags.value| > 0 then Some((VisibleTags(tags.value), ExtraTagCount(tags.value))) else None
  }

  /** What one note card shows; `updated` is the "Actualizada" date, when it appears. */
  datatype Card = Card(icon: string, statusText: string, title: string, text: string,
                       tags: Option<(seq<string>, Option<nat>)>, created: string, updated: Option<string>)

  /**
   * The card of one note: status icon and label, title, truncated content, tag row, the creation
   * date, and the update date only when it differs from the creation date. A note without
   * content has no card, because `truncateContent` fails on it.
   */
  function CardFor(n: ClientNote): (c: Option<Card>)
    ensures c.None? <==> n.content.None?
    ensures c.Some? ==> c.value.icon == StatusIcon(n.status) && c.value.statusText == StatusText(n.status)
    ensures c.Some? ==> c.value.title == n.title.GetOr("") && c.value.text == TruncateContent(n.content.value)
    ensures c.Some? ==> c.value.tags == TagRow(n.tags) && c.value.created == n.createdAt
    ensures c.Some? ==> (c.value.updated.Some? <==> n.updatedAt != n.createdAt)
    ensures c.Some? && c.value.updated.Some? ==> c.value.updated.value == n.updatedAt
  {
    match n.content
    case None => None
    case Some(content) =>
      Some(Card(StatusIcon(n.status), StatusText(n.status), n.title.GetOr(""), TruncateContent(content),
                TagRow(n.tags), n.createdAt, if n.updatedAt != n.createdAt then Some(n.updatedAt) else None))
  }

  /** A note never edited since it was created shows a single date; an edited one shows both. */
  lemma CardDates(n: ClientNote, later: string)
    requires n.content.Some?
    ensures CardFor(n.(updatedAt := n.createdAt)).value.updated.None?
    ensures later != n.createdAt ==> CardFor(n.(updatedAt := later)).value.updated == Some(later)
  {
  }

  datatype View = Loading | Empty | Grid(notes: seq<ClientNote>)

  /** What the list renders: the spinner first, then the empty state for missing or no notes, else the grid. */
  function RenderList(notes: Option<seq<ClientNote>>, loading: bool): (v: View)
    ensures loading ==> v == Loading
    ensures !loading && (notes.None? || notes.value == []) ==> v == Empty
    ensures !loading && notes.Some? && notes.value != [] ==> v == Grid(notes.value)
    ensures v.Grid? ==> notes.Some? && v.notes == notes.value && |v.notes| > 0
  {
    if loading then Loading
    else if notes.None? || |notes.value| == 0 then Empty
    else Grid(notes.value)
  }
}
