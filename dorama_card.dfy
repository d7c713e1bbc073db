/**
 * The values a catalogue card derives from a row: the capitalised genre
 * badge, the duration badge, the two-tag preview and the view count. A
 * JavaScript string is "truthy" when it is present and non-empty.
 */
module DoramaCard {
  import opened Wrappers
  import opened Types
  import Text

  predicate Truthy(s: Option<string>) { s.Some? && s.value != "" }

  /** The genre badge: shown for a non-empty genre, its first letter upper-cased. */
  function GenreLabel(genre: Option<string>): (badge: Option<string>)
    ensures badge.Some? <==> Truthy(genre)
    ensures badge.Some? ==> (|badge.value| == |genre.value|
      && badge.value[0] == Text.ToUpperAscii(genre.value[0])
      && badge.value[1..] == genre.value[1..])
  {
    if Truthy(genre) then Some(Text.Capitalize(genre.value)) else None
  }

  /** `tags.slice(0, 2)`, shown only for a present, non-empty tag list. */
  function TagPreview(tags: Option<seq<string>>): (preview: Option<seq<string>>)
    ensures preview.Some? <==> tags.Some? && |tags.value| > 0
    ensures preview.Some? ==> (1 <= |preview.value| <= 2
      && |preview.value| == (if |tags.value| < 2 then |tags.value| else 2)
      && preview.value == tags.value[..|preview.value|])
  {
    if tags.Some? && |tags.value| > 0 then
      Some(tags.value[..if |tags.value| < 2 then |tags.value| else 2])
    else None
  }

  datatype CardView = CardView(
    title: string,
    genreBadge: Option<string>,
    durationBadge: Option<string>,
    description: Option<string>,
    tagPreview: Option<seq<string>>,
    viewCount: Option<int>)

  /** The card for a row. */
  function Card(m: Movie): (v: CardView)
    ensures v.title == m.title
    ensures v.genreBadge == GenreLabel(m.genre)
    ensures v.durationBadge.Some? <==> Truthy(m.duration)
    ensures v.durationBadge.Some? ==> v.durationBadge == m.duration
    ensures v.description.Some? <==> Truthy(m.description)
    ensures v.description.Some? ==> v.description == m.description
    ensures v.tagPreview == TagPreview(m.tags)
    ensures v.viewCount == m.sales_count
  {
    CardView(
      m.title,
      GenreLabel(m.genre),
      if Truthy(m.duration) then m.duration else None,
      if Truthy(m.description) then m.description else None,
      TagPreview(m.tags),
      m.sales_count)
  }
}
