/**
 * The gallery's video card (components/VideoCard.js): what one card shows for a video
 * and its `featured` prop (set for the cards of the featured row), and the two flags,
 * hover and image failure, that its events flip.
 */
module VideoCard {
  import opened Records
  import opened Text
  import opened Duration
  import opened Categories
  import opened Listing

  /**
   * `formatViews`: the integer text below a thousand, otherwise the tier only; the
   * one-decimal K and M figures come from floating-point formatting.
   */
  datatype ViewsLabel = Plain(text: string) | Thousands(views: nat) | Millions(views: nat)

  function FormatViews(views: Option<nat>): ViewsLabel
  {
    if views.None? || views.value == 0 then Plain("0 views")
    else if views.value >= 1000000 then Millions(views.value)
    else if views.value >= 1000 then Thousands(views.value)
    else Plain(DecimalString(views.value) + " views")
  }

  /** Reads a plain "N views" label back. */
  function ParseViews(t: string): Option<nat>
  {
    if |t| > 6 && t[|t| - 6..] == " views" && AllDigits(t[..|t| - 6])
    then Some(DecimalValue(t[..|t| - 6]))
    else None
  }

  /**
   * The tier follows the count: a million and up, a thousand and up, and below that the
   * exact count, which reads back from its label; a missing count reads as 0.
   */
  lemma FormatViewsTiers(views: Option<nat>)
    ensures var n := views.GetOr(0);
            && (FormatViews(views).Millions? <==> n >= 1000000)
            && (FormatViews(views).Thousands? <==> 1000 <= n < 1000000)
            && (FormatViews(views).Plain? <==> n < 1000)
            && (!FormatViews(views).Plain? ==> FormatViews(views).views == n)
            && (FormatViews(views).Plain? ==> ParseViews(FormatViews(views).text) == Some(n))
  {
    var n := views.GetOr(0);
    if n < 1000 {
      var t := FormatViews(views).text;
      var digits := DecimalString(n);
      assert t == digits + " views";
      assert t[..|t| - 6] == digits;
      DecimalRoundTrip(n);
    }
  }

  /** How many technology tags a card shows: six on a featured card, four otherwise. */
  function TagLimit(featured: bool): nat
  {
    if featured then 6 else 4
  }

  /** `video.technologies?.slice(0, limit)`. */
  function ShownTags(technologies: Option<seq<string>>, featured: bool): seq<string>
  {
    if technologies.None? then [] else Take(technologies.value, TagLimit(featured))
  }

  /** The `+N` badge: present only when there are more tags than the limit. */
  function OverflowBadge(technologies: Option<seq<string>>, featured: bool): Option<string>
  {
    if technologies.Some? && |technologies.value| > TagLimit(featured)
    then Some("+" + DecimalString(|technologies.value| - TagLimit(featured)))
    else None
  }

  /**
   * The card shows the first `min(n, limit)` tags in order; the badge appears exactly
   * when some are hidden and counts exactly those.
   */
  lemma TagTruncation(technologies: Option<seq<string>>, featured: bool)
    ensures var t, shown, limit := technologies.GetOr([]), ShownTags(technologies, featured), TagLimit(featured);
            && |shown| == (if |t| <= limit then |t| else limit)
            && shown == t[..|shown|]
            && (OverflowBadge(technologies, featured).Some? <==> |t| > limit)
            && (OverflowBadge(technologies, featured).Some? ==>
                  var b := OverflowBadge(technologies, featured).value;
                  && b[0] == '+' && AllDigits(b[1..])
                  && |shown| + DecimalValue(b[1..]) == |t|)
  {
    var t, limit := technologies.GetOr([]), TagLimit(featured);
    if technologies.Some? && |t| > limit {
      var b := OverflowBadge(technologies, featured).value;
      assert b[1..] == DecimalString(|t| - limit);
      DecimalRoundTrip(|t| - limit);
    }
  }

  /** The card image: the placeholder once loading failed or when there is no thumbnail. */
  datatype Thumbnail = Placeholder | Image(url: string)

  /** What one card shows. */
  datatype CardView = CardView(
    thumbnail: Thumbnail,
    zoomed: bool,
    durationBadge: Option<string>,
    featuredBadge: bool,
    categoryClass: Option<string>,
    title: string,
    description: string,
    tags: seq<string>,
    overflow: Option<string>,
    views: ViewsLabel,
    demoLink: Option<string>,
    githubLink: Option<string>)

  function RenderCard(v: Video, featured: bool, isHovered: bool, imageError: bool): CardView
  {
    CardView(
      if imageError || v.thumbnailUrl == "" then Placeholder else Image(v.thumbnailUrl),
      isHovered,
      DurationLabel(v.duration),
      v.featured,
      if v.category != "" then Some(StyleClass(v.category)) else None,
      v.title,
      if featured && v.businessDescription != "" then v.businessDescription else v.description,
      ShownTags(v.technologies, featured),
      OverflowBadge(v.technologies, featured),
      FormatViews(v.views),
      if v.demoUrl != "" then Some(v.demoUrl) else None,
      if v.githubUrl != "" then Some(v.githubUrl) else None)
  }

  /**
   * The card's display rules: the placeholder exactly when the image failed or is
   * missing; a duration badge exactly for a positive duration, reading back to it; an
   * unknown category styled as 'tag'; on a featured card the business description when
   * it is not empty, else (and on every other card) the description.
   */
  lemma RenderCardRules(v: Video, featured: bool, isHovered: bool, imageError: bool)
    ensures var c := RenderCard(v, featured, isHovered, imageError);
            && (c.thumbnail.Placeholder? <==> imageError || v.thumbnailUrl == "")
            && (c.thumbnail.Image? ==> c.thumbnail.url == v.thumbnailUrl)
            && (c.durationBadge.Some? <==> v.duration.Some? && v.duration.value > 0)
            && (c.durationBadge.Some? ==> ParseDuration(c.durationBadge.value) == v.duration)
            && (c.categoryClass.Some? <==> v.category != "")
            && (c.categoryClass.Some? && v.category !in FormCategories ==> c.categoryClass.value == "tag")
            && (c.categoryClass.Some? ==>
                  c.categoryClass.value == "tag" || StartsWith(c.categoryClass.value, "category-"))
            && (featured && v.businessDescription != "" ==> c.description == v.businessDescription)
            && (featured && v.businessDescription == "" ==> c.description == v.description)
            && (!featured ==> c.description == v.description)
  {
    DurationLabelShown(v.duration);
    StyleClassTable(v.category);
  }

  /** The component's own state: whether the pointer is over the card and whether its image failed to load. */
  class CardState {
    var isHovered: bool
    var imageError: bool

    constructor ()
      ensures !isHovered && !imageError
    {
      isHovered, imageError := false, false;
    }

    method MouseEnter()
      modifies this
      ensures isHovered && imageError == old(imageError)
    {
      isHovered := true;
    }

    method MouseLeave()
      modifies this
      ensures !isHovered && imageError == old(imageError)
    {
      isHovered := false;
    }

    /** The image's `onError`: from now on the card shows the placeholder. */
    method ImageLoadFailed()
      modifies this
      ensures imageError && isHovered == old(isHovered)
    {
      imageError := true;
    }

    function View(v: Video, featured: bool): CardView
      reads this
    {
      RenderCard(v, featured, isHovered, imageError)
    }
  }

  /** Once the image has failed, the card keeps the placeholder whatever the pointer does. */
  lemma FailedImageStaysPlaceholder(v: Video, featured: bool, hovered: bool)
    ensures RenderCard(v, featured, hovered, true).thumbnail == Placeholder
    ensures RenderCard(v, featured, hovered, false).thumbnail.Placeholder? <==> v.thumbnailUrl == ""
  {
  }
}
