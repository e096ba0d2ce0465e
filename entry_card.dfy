/**
 * The entry card of src/components/EntryCard.tsx: a type badge coloured by
 * type, an optional category badge, the title and content, the tags, and up
 * to three thumbnails followed by a count of the images left over.
 */
module EntryCard {
  import opened Wrappers
  import opened Strings
  import opened Seqs
  import opened EntryTypes

  /** The colours the badges use. */
  datatype Hue = Purple | Blue | Green | Orange | Pink | Gray

  /** The class list of a badge in each colour. */
  function Classes(h: Hue): string {
    match h
    case Purple => "bg-purple-100 text-purple-800 dark:bg-purple-900 dark:text-purple-200"
    case Blue => "bg-blue-100 text-blue-800 dark:bg-blue-900 dark:text-blue-200"
    case Green => "bg-green-100 text-green-800 dark:bg-green-900 dark:text-green-200"
    case Orange => "bg-orange-100 text-orange-800 dark:bg-orange-900 dark:text-orange-200"
    case Pink => "bg-pink-100 text-pink-800 dark:bg-pink-900 dark:text-pink-200"
    case Gray => "bg-gray-100 text-gray-800"
  }

  /** The colour table of `getTypeColor`. */
  function TypeHue(t: EntryType): Hue {
    match t
    case Idea => Purple
    case Work => Blue
    case Outcome => Green
    case Job => Orange
    case Education => Pink
  }

  /** The colour `getTypeColor` picks: the table's entry for a type name, gray for any other string. */
  function HueOf(typeName: string): (r: Hue)
    ensures r == Gray <==> ParseType(typeName).None?
  {
    match ParseType(typeName)
    case Some(t) => TypeHue(t)
    case None => Gray
  }

  /** `getTypeColor(type)`. */
  function TypeColor(typeName: string): string {
    Classes(HueOf(typeName))
  }

  /** Each type's badge gets its own colour from the table; only strings that name no type are gray. */
  lemma TypeColorsDistinct(t: EntryType, u: EntryType, other: string)
    ensures HueOf(TypeName(t)) == TypeHue(t)
    ensures t != u ==> TypeHue(t) != TypeHue(u)
    ensures ParseType(other).None? ==> TypeColor(other) == Classes(Gray)
  {
    TypeNameRoundTrip(t);
  }

  /** The tag chips: `#tag` for every tag, in order. */
  function TagChips(tags: seq<string>): seq<string> {
    Prefixed("#", tags)
  }

  /** The images shown as thumbnails: `images.slice(0, 3)`. */
  function Thumbnails(images: seq<string>): (r: seq<string>)
    ensures |r| <= 3
    ensures r <= images
  {
    Take(images, 3)
  }

  /** The overflow badge: `+n` for the `n` images beyond the third, shown only when there are any. */
  function Overflow(images: seq<string>): (r: Option<string>)
    ensures r.Some? <==> |images| > 3
  {
    if |images| > 3 then Some("+" + NatToString(|images| - 3)) else None
  }

  /** The thumbnails and the overflow count together account for every image. */
  lemma ImagesAccountedFor(images: seq<string>)
    ensures |Thumbnails(images)| + (if |images| > 3 then |images| - 3 else 0) == |images|
    ensures Overflow(images).Some? ==>
      Overflow(images).value == "+" + NatToString(|images| - |Thumbnails(images)|)
  {
  }

  /** What a card shows. */
  datatype Card = Card(
    typeLabel: string,
    typeClass: string,
    category: Option<string>,
    title: string,
    content: string,
    tags: seq<string>,
    thumbnails: seq<string>,
    overflow: Option<string>)

  /** The card for an entry. */
  function Render(e: Entry): (r: Card)
    ensures r.typeClass == Classes(TypeHue(e.Type()))
    ensures r.category.Some? <==> e.base.category != ""
    ensures r.category.Some? ==> r.category.value == e.base.category
    ensures |r.tags| == |e.base.tags|
    ensures forall i :: 0 <= i < |r.tags| ==> r.tags[i] == "#" + e.base.tags[i]
    ensures r.thumbnails <= e.base.images
    ensures |r.thumbnails| == (if |e.base.images| < 3 then |e.base.images| else 3)
    ensures r.overflow.Some? <==> |e.base.images| > 3
  {
    TypeColorsDistinct(e.Type(), e.Type(), "");
    Card(TypeName(e.Type()), TypeColor(TypeName(e.Type())),
         if e.base.category != "" then Some(e.base.category) else None,
         e.base.title, e.base.content,
         TagChips(e.base.tags),
         Thumbnails(e.base.images), Overflow(e.base.images))
  }
}
