/** The gallery view (`renderGalleryView` in public/app.js): one card per
    row with a title, an optional image and the other non-empty properties. */
module Gallery {
  import opened Common
  import opened Properties
  import opened Table

  /** Position of the first property whose type is 'title', if any. */
  function FirstTitle(ps: seq<Entry>): (t: Option<nat>)
    ensures t.None? <==> forall i :: 0 <= i < |ps| ==> !ps[i].value.Title?
    ensures t.Some? ==> t.value < |ps| && ps[t.value].value.Title?
    ensures t.Some? ==> forall j :: 0 <= j < t.value ==> !ps[j].value.Title?
  {
    if |ps| == 0 then None
    else if ps[0].value.Title? then Some(0)
    else match FirstTitle(ps[1..])
      case None => None
      case Some(k) => Some(k + 1)
  }

  /** The title search loop: stops at the first 'title' property. */
  method FindTitle(ps: seq<Entry>) returns (title: Option<nat>)
    requires PresentUpTo(ps, FirstTitle(ps))
    ensures title == FirstTitle(ps)
  {
    title := None;
    var i := 0;
    while i < |ps|
      invariant 0 <= i <= |ps|
      invariant forall j :: 0 <= j < i ==> !ps[j].value.Title?
    {
      if ps[i].value.Title? {
        title := Some(i);
        break;
      }
      i := i + 1;
    }
  }

  /** The card heading: the title property's rendering, or "Senza titolo"
      when there is no title property or it renders empty. */
  function TitleText(ps: seq<Entry>): (s: string)
    ensures s != ""
    ensures FirstTitle(ps).None? ==> s == "Senza titolo"
    ensures FirstTitle(ps).Some? && Shown(Render(ps[FirstTitle(ps).value].value)) ==>
              s == Render(ps[FirstTitle(ps).value].value).text
    ensures FirstTitle(ps).Some? && !Shown(Render(ps[FirstTitle(ps).value].value)) ==>
              s == "Senza titolo"
  {
    var d := match FirstTitle(ps) case None => Render(Missing) case Some(k) => Render(ps[k].value);
    if Shown(d) then ToText(d) else "Senza titolo"
  }

  /** A property the image search stops at: a files property with at least
      one file, or a url property with a non-empty URL. */
  predicate IsImageSource(p: Prop) {
    (p.Files? && |p.files| > 0) || (p.Url? && Truthy(p.url))
  }

  /** The URL an image source yields: the first file's URL, else the url. */
  function ImageOf(p: Prop): string
    requires IsImageSource(p)
  {
    if p.Files? then p.files[0].url else p.url.value
  }

  /** Position of the first image source, if any. */
  function FirstImageSource(ps: seq<Entry>): (k: Option<nat>)
    ensures k.None? <==> forall i :: 0 <= i < |ps| ==> !IsImageSource(ps[i].value)
    ensures k.Some? ==> k.value < |ps| && IsImageSource(ps[k.value].value)
    ensures k.Some? ==> forall j :: 0 <= j < k.value ==> !IsImageSource(ps[j].value)
  {
    if |ps| == 0 then None
    else if IsImageSource(ps[0].value) then Some(0)
    else match FirstImageSource(ps[1..])
      case None => None
      case Some(k) => Some(k + 1)
  }

  /** Every value a search loop reads is present: the loop reads `.type`
      of each value up to the one it stops at, and of all of them when it
      stops at none, and a null value there throws. */
  predicate PresentUpTo(ps: seq<Entry>, found: Option<nat>) {
    forall i :: 0 <= i < |ps| && (found.None? || i < found.value) ==> !ps[i].value.Missing?
  }

  /** The title and image searches of a card read only present values. */
  predicate CardReadable(ps: seq<Entry>) {
    PresentUpTo(ps, FirstTitle(ps)) && PresentUpTo(ps, FirstImageSource(ps))
  }

  predicate RowsReadable(rows: seq<Page>) {
    forall r :: 0 <= r < |rows| ==> CardReadable(rows[r].properties)
  }

  /** `imageUrl` after the search (None: undefined). */
  function ImageUrl(ps: seq<Entry>): Option<string>
  {
    match FirstImageSource(ps)
    case None => None
    case Some(k) => Some(ImageOf(ps[k].value))
  }

  /** The image search loop. */
  method FindImageUrl(ps: seq<Entry>) returns (url: Option<string>)
    requires PresentUpTo(ps, FirstImageSource(ps))
    ensures url == ImageUrl(ps)
  {
    url := None;
    var i := 0;
    while i < |ps|
      invariant 0 <= i <= |ps|
      invariant forall j :: 0 <= j < i ==> !IsImageSource(ps[j].value)
    {
      var p := ps[i].value;
      if p.Files? && |p.files| > 0 {
        url := Some(p.files[0].url);
        break;
      } else if p.Url? && Truthy(p.url) {
        url := Some(p.url.value);
        break;
      }
      i := i + 1;
    }
  }

  /** One line of card content: the property name and its rendered text. */
  datatype ContentLine = ContentLine(name: string, value: string)

  /** Whether the content loop shows the property at `k`: it is not the
      title property and its rendering is truthy. */
  predicate Kept(ps: seq<Entry>, title: Option<nat>, k: int)
    requires 0 <= k < |ps|
  {
    title != Some(k) && Shown(Render(ps[k].value))
  }

  /** The kept positions below `n`, ascending. */
  function KeptIndices(ps: seq<Entry>, title: Option<nat>, n: nat): seq<nat>
    requires n <= |ps|
  {
    if n == 0 then []
    else KeptIndices(ps, title, n - 1) + (if Kept(ps, title, n - 1) then [n - 1] else [])
  }

  /** The positions kept are exactly those the content loop shows, each once,
      in key order. */
  lemma {:induction false} KeptIndicesSpec(ps: seq<Entry>, title: Option<nat>, n: nat)
    requires n <= |ps|
    ensures forall k :: k in KeptIndices(ps, title, n) <==> 0 <= k < n && Kept(ps, title, k)
    ensures forall m :: 0 <= m < |KeptIndices(ps, title, n)| ==> KeptIndices(ps, title, n)[m] < n
    ensures forall a, b :: 0 <= a < b < |KeptIndices(ps, title, n)| ==>
              KeptIndices(ps, title, n)[a] < KeptIndices(ps, title, n)[b]
  {
    if n > 0 {
      KeptIndicesSpec(ps, title, n - 1);
      var prev := KeptIndices(ps, title, n - 1);
      assert forall m :: 0 <= m < |prev| ==> KeptIndices(ps, title, n)[m] == prev[m];
    }
  }

  function LineAt(ps: seq<Entry>, k: nat): ContentLine
    requires k < |ps|
  {
    ContentLine(ps[k].key, ToText(Render(ps[k].value)))
  }

  /** The lines of the properties kept below `n`. */
  function ContentUpTo(ps: seq<Entry>, title: Option<nat>, n: nat): (lines: seq<ContentLine>)
    requires n <= |ps|
    ensures |lines| == |KeptIndices(ps, title, n)|
  {
    var kept := KeptIndices(ps, title, n);
    KeptIndicesSpec(ps, title, n);
    seq(|kept|, m requires 0 <= m < |kept| => LineAt(ps, kept[m]))
  }

  function ContentOf(ps: seq<Entry>, title: Option<nat>): seq<ContentLine>
  {
    ContentUpTo(ps, title, |ps|)
  }

  /** The content lists, in key order, exactly the properties other than the
      title property whose rendering is truthy, each with its rendered text. */
  lemma ContentMeaning(ps: seq<Entry>, title: Option<nat>)
    ensures var kept := KeptIndices(ps, title, |ps|);
            |ContentOf(ps, title)| == |kept|
            && (forall m :: 0 <= m < |kept| ==> kept[m] < |ps| && ContentOf(ps, title)[m] == LineAt(ps, kept[m]))
            && (forall k :: k in kept <==> 0 <= k < |ps| && Kept(ps, title, k))
            && (forall a, b :: 0 <= a < b < |kept| ==> kept[a] < kept[b])
  {
    KeptIndicesSpec(ps, title, |ps|);
  }

  /** A non-title property is left out of the content exactly when it
      renders as '' or as the number 0; so an unknown type, an empty list or
      an unset select is left out, and a checkbox never is. */
  lemma ContentSkipsFalsy(ps: seq<Entry>, title: Option<nat>, k: int)
    requires 0 <= k < |ps|
    ensures Kept(ps, title, k) <==>
              title != Some(k) && !RendersEmpty(ps[k].value) && !RendersZero(ps[k].value)
  {
    RenderFalsyIff(ps[k].value);
  }

  /** The content loop: appends a line for each non-title property whose
      rendering is truthy. */
  method CollectContent(ps: seq<Entry>, title: Option<nat>) returns (lines: seq<ContentLine>)
    ensures lines == ContentOf(ps, title)
  {
    lines := [];
    var i := 0;
    while i < |ps|
      invariant 0 <= i <= |ps|
      invariant lines == ContentUpTo(ps, title, i)
    {
      var value := Render(ps[i].value);
      if title != Some(i) && Shown(value) {
        lines := lines + [ContentLine(ps[i].key, ToText(value))];
      }
      i := i + 1;
    }
  }

  /** A gallery card. */
  datatype Card = Card(title: string, image: Option<string>, content: seq<ContentLine>)

  function CardOf(page: Page): Card
  {
    var ps := page.properties;
    Card(TitleText(ps),
         if Truthy(ImageUrl(ps)) then ImageUrl(ps) else None,
         ContentOf(ps, FirstTitle(ps)))
  }

  /** A card shows an image iff some property is an image source and the
      first one yields a non-empty URL; the image is then that URL. A later
      source is never used, even when the first one's URL is empty. */
  lemma CardImage(page: Page)
    ensures var ps := page.properties;
            CardOf(page).image.Some? <==>
              FirstImageSource(ps).Some? && ImageOf(ps[FirstImageSource(ps).value].value) != ""
    ensures var ps := page.properties;
            CardOf(page).image.Some? ==>
              CardOf(page).image.value == ImageOf(ps[FirstImageSource(ps).value].value)
  {
  }

  /** The body of the `data.forEach` that builds one card. */
  method BuildCard(page: Page) returns (card: Card)
    requires CardReadable(page.properties)
    ensures card == CardOf(page)
  {
    var ps := page.properties;
    var title := FindTitle(ps);
    var titleValue := if title.Some? then Render(ps[title.value].value) else Render(Missing);
    var heading := if Shown(titleValue) then ToText(titleValue) else "Senza titolo";
    var url := FindImageUrl(ps);
    var content := CollectContent(ps, title);
    card := Card(heading, if Truthy(url) then url else None, content);
  }

  /** What the gallery view shows: a "no data" message for an empty result,
      else one card per row. */
  datatype GalleryView = EmptyGallery | Cards(cards: seq<Card>)

  function GalleryOf(rows: seq<Page>): GalleryView
  {
    if |rows| == 0 then EmptyGallery
    else Cards(seq(|rows|, r requires 0 <= r < |rows| => CardOf(rows[r])))
  }

  /** `renderGalleryView(data)`. */
  method RenderGalleryView(rows: seq<Page>) returns (view: GalleryView)
    requires RowsReadable(rows)
    ensures view == GalleryOf(rows)
    ensures view.EmptyGallery? <==> |rows| == 0
  {
    if |rows| == 0 {
      return EmptyGallery;
    }
    var cards := [];
    var r := 0;
    while r < |rows|
      invariant 0 <= r <= |rows|
      invariant |cards| == r
      invariant forall i :: 0 <= i < r ==> cards[i] == CardOf(rows[i])
    {
      var card := BuildCard(rows[r]);
      cards := cards + [card];
      r := r + 1;
    }
    view := Cards(cards);
  }
}
