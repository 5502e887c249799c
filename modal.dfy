/** The project modal (script.js:159-210): clicking a project card copies
    the card's data attributes into a shared overlay panel and shows it;
    the close control, or a click on the overlay background, hides it. */
module Modal {
  import opened Dataset
  import Tags

  /** The data attributes a project card carries (script.js:163-167). */
  datatype CardData = CardData(
    title: Attr,
    media: Attr,
    description: Attr,
    tags: Attr,
    detailsPage: Attr)

  // ---------------------------------------------------------------------
  // Splitting the tag list (script.js:166)
  // ---------------------------------------------------------------------

  /** `Array.prototype.join(',')`: the partner of `Split`. */
  function Join(parts: seq<string>): string
    requires |parts| >= 1
  {
    if |parts| == 1 then parts[0] else parts[0] + "," + Join(parts[1..])
  }

  /** `String.prototype.split(',')`: cuts at every comma and always yields
      at least one segment. */
  function Split(s: string): (parts: seq<string>)
    ensures |parts| >= 1
    decreases |s|
  {
    if s == [] then
      [[]]
    else
      var rest := Split(s[1..]);
      if s[0] == ',' then [[]] + rest else [[s[0]] + rest[0]] + rest[1..]
  }

  /** One segment per comma, plus one. */
  lemma {:induction false} SplitCount(s: string)
    ensures |Split(s)| == multiset(s)[','] + 1
  {
    if s != [] {
      SplitCount(s[1..]);
      assert s == [s[0]] + s[1..];
      assert multiset(s) == multiset([s[0]]) + multiset(s[1..]);
    }
  }

  /** No segment contains a comma. */
  lemma {:induction false} SplitSegmentsCommaFree(s: string)
    ensures forall k :: 0 <= k < |Split(s)| ==> ',' !in Split(s)[k]
  {
    if s != [] {
      SplitSegmentsCommaFree(s[1..]);
    }
  }

  /** Joining the segments with commas gives back the string: split keeps
      every other character, trims nothing and keeps order. */
  lemma {:induction false} JoinSplit(s: string)
    ensures Join(Split(s)) == s
  {
    if s != [] {
      JoinSplit(s[1..]);
      var rest := Split(s[1..]);
      assert s == [s[0]] + s[1..];
      if s[0] == ',' {
        assert ([[]] + rest)[1..] == rest;
      } else {
        var parts := [[s[0]] + rest[0]] + rest[1..];
        if |rest| > 1 {
          assert parts[1..] == rest[1..];
        }
      }
    }
  }

  /** A segment without commas splits to itself. */
  lemma {:induction false} SplitSingle(p: string)
    requires ',' !in p
    ensures Split(p) == [p]
  {
    if p != [] {
      SplitSingle(p[1..]);
      assert [p[0]] + p[1..] == p;
    }
  }

  /** A comma-free first segment followed by a comma is cut off whole. */
  lemma {:induction false} SplitAfterSegment(p: string, t: string)
    requires ',' !in p
    ensures Split(p + "," + t) == [p] + Split(t)
  {
    if p == [] {
      assert (p + "," + t)[1..] == t;
    } else {
      var s := p + "," + t;
      assert s[1..] == p[1..] + "," + t;
      SplitAfterSegment(p[1..], t);
      assert [p[0]] + p[1..] == p;
    }
  }

  /** Splitting undoes joining comma-free segments: segments come back in
      order and unchanged. */
  lemma {:induction false} SplitJoin(parts: seq<string>)
    requires |parts| >= 1
    requires forall k :: 0 <= k < |parts| ==> ',' !in parts[k]
    ensures Split(Join(parts)) == parts
  {
    if |parts| == 1 {
      SplitSingle(parts[0]);
    } else {
      SplitJoin(parts[1..]);
      SplitAfterSegment(parts[0], Join(parts[1..]));
      assert [parts[0]] + parts[1..] == parts;
    }
  }

  /** Two comma-free segments joined by one comma split back into the two. */
  lemma SplitTwo(s: string, a: string, b: string)
    requires ',' !in a && ',' !in b
    requires s == a + "," + b
    ensures Split(s) == [a, b]
  {
    SplitJoin([a, b]);
  }

  // ---------------------------------------------------------------------
  // Media kind (script.js:175-180) and title (script.js:170)
  // ---------------------------------------------------------------------

  datatype MediaKind = VideoKind | ImageKind

  /** `String.prototype.endsWith`, case-sensitive. */
  predicate EndsWith(s: string, suffix: string)
    ensures EndsWith(s, suffix) <==> exists p :: p + suffix == s
  {
    assert |suffix| <= |s| ==> s[..|s| - |suffix|] + s[|s| - |suffix|..] == s;
    assert forall p :: p + suffix == s ==> (p + suffix)[|p|..] == suffix;
    |suffix| <= |s| && s[|s| - |suffix|..] == suffix
  }

  /** The media path is rendered as a video exactly when it is present and
      ends in ".mp4" or ".webm"; every other path, and a missing one, as an
      image. The truthiness test at script.js:175 never decides on its own:
      a path with either suffix is non-empty. */
  function MediaKindOf(src: Attr): (k: MediaKind)
    ensures k == VideoKind <==>
      src.Present? && (EndsWith(src.value, ".mp4") || EndsWith(src.value, ".webm"))
  {
    if Truthy(src) && (EndsWith(src.value, ".mp4") || EndsWith(src.value, ".webm")) then
      VideoKind
    else
      ImageKind
  }

  /** The element the modal's media box holds. */
  datatype MediaContent =
    | NoMedia
    | VideoElement(src: string)
    | ImageElement(src: string, alt: string)

  /** The media element rendered for a card (markup and escaping aside). */
  function MediaFor(card: CardData): (m: MediaContent)
    ensures m.VideoElement? <==> MediaKindOf(card.media) == VideoKind
    ensures m.VideoElement? ==> card.media == Present(m.src)
    ensures m.ImageElement? ==> m.src == Text(card.media) && m.alt == Text(card.title) + " media"
    ensures m != NoMedia
  {
    if MediaKindOf(card.media) == VideoKind then
      VideoElement(card.media.value)
    else
      ImageElement(Text(card.media), Text(card.title) + " media")
  }

  /** The heading text `[ <title>.exe ]`: the title sits unchanged between a
      fixed prefix and suffix, so it can be read back from the heading. */
  function TitleText(title: Attr): (r: string)
    ensures |r| == |Text(title)| + 8
    ensures r[..2] == "[ " && r[|r| - 6..] == ".exe ]"
    ensures r[2..|r| - 6] == Text(title)
  {
    "[ " + Text(title) + ".exe ]"
  }

  // ---------------------------------------------------------------------
  // Tag spans (script.js:135-157, 183-186)
  // ---------------------------------------------------------------------

  /** A `<span>` in the tag box: its text and its `className`. */
  datatype TagSpan = TagSpan(text: string, className: string)

  /** `createTagSpan`: the span keeps the tag's text verbatim and carries
      the class of the first keyword rule the tag satisfies. */
  function CreateTagSpan(tagText: string): (span: TagSpan)
    ensures span.text == tagText
    ensures span.className == Tags.ClassName(Tags.Classify(tagText))
  {
    TagSpan(tagText, Tags.ClassName(Tags.Classify(tagText)))
  }

  /** The spans for a list of tags, one per tag, in order. */
  function Spans(tags: seq<string>): (r: seq<TagSpan>)
    ensures |r| == |tags|
    ensures forall k :: 0 <= k < |tags| ==> r[k] == CreateTagSpan(tags[k])
  {
    seq(|tags|, k requires 0 <= k < |tags| => CreateTagSpan(tags[k]))
  }

  /** The texts of a row of spans. */
  function Texts(spans: seq<TagSpan>): seq<string> {
    seq(|spans|, k requires 0 <= k < |spans| => spans[k].text)
  }

  /** The spans' texts are the card's tag segments: joined with commas they
      give back the tag list, so nothing is dropped, trimmed or reordered. */
  lemma SpansKeepTagList(tags: string)
    ensures |Spans(Split(tags))| == multiset(tags)[','] + 1
    ensures Join(Texts(Spans(Split(tags)))) == tags
  {
    SplitCount(tags);
    JoinSplit(tags);
    assert Texts(Spans(Split(tags))) == Split(tags);
  }

  // ---------------------------------------------------------------------
  // The overlay panel (script.js:161-209)
  // ---------------------------------------------------------------------

  class ProjectModal {
    /** The overlay's `style.display` is 'flex' (true) or 'none' (false). */
    var shown: bool
    var titleText: string
    var descriptionText: string
    var detailsHref: string
    var media: MediaContent
    var tagSpans: seq<TagSpan>

    /** The panel as the page's markup provides it. */
    constructor (shown: bool, titleText: string, descriptionText: string,
                 detailsHref: string, media: MediaContent, tagSpans: seq<TagSpan>)
      ensures this.shown == shown && this.titleText == titleText
      ensures this.descriptionText == descriptionText && this.detailsHref == detailsHref
      ensures this.media == media && this.tagSpans == tagSpans
    {
      this.shown := shown;
      this.titleText := titleText;
      this.descriptionText := descriptionText;
      this.detailsHref := detailsHref;
      this.media := media;
      this.tagSpans := tagSpans;
    }

    /** A click on a project card. A card without a `data-tags` attribute
        makes `split` throw before anything is written, so the panel is left
        as it was (`completed` is false). Otherwise every part of the panel
        is filled from the card, the old tag spans are replaced by one span
        per comma-separated segment, in order, and the overlay is shown. */
    method Open(card: CardData) returns (completed: bool)
      modifies this
      ensures completed <==> card.tags.Present?
      ensures !completed ==>
        && shown == old(shown) && titleText == old(titleText)
        && descriptionText == old(descriptionText) && detailsHref == old(detailsHref)
        && media == old(media) && tagSpans == old(tagSpans)
      ensures completed ==>
        && shown
        && titleText == TitleText(card.title)
        && descriptionText == (if card.description.Present? then card.description.value else "")
        && detailsHref == Text(card.detailsPage)
        && media == MediaFor(card)
        && tagSpans == Spans(Split(card.tags.value))
    {
      if card.tags.Absent? {
        return false;
      }
      var tags := Split(card.tags.value);

      titleText := TitleText(card.title);
      // `textContent = undefined` stores the empty string
      descriptionText := if card.description.Present? then card.description.value else "";
      detailsHref := Text(card.detailsPage);
      media := MediaFor(card);

      tagSpans := [];
      var i := 0;
      while i < |tags|
        invariant 0 <= i <= |tags|
        invariant |tagSpans| == i
        invariant forall k :: 0 <= k < i ==> tagSpans[k] == CreateTagSpan(tags[k])
        modifies this`tagSpans
      {
        tagSpans := tagSpans + [CreateTagSpan(tags[i])];
        i := i + 1;
      }

      shown := true;
      completed := true;
    }

    /** The close control: hide the overlay and empty the media box (which
        stops a playing video). Title, text, link and tags stay. */
    method Close()
      modifies this
      ensures !shown && media == NoMedia
      ensures titleText == old(titleText) && descriptionText == old(descriptionText)
      ensures detailsHref == old(detailsHref) && tagSpans == old(tagSpans)
    {
      shown := false;
      media := NoMedia;
    }

    /** A click that reaches the overlay closes the modal only when the
        overlay itself is the event's target, not the panel inside it. */
    method OverlayClick(targetIsOverlay: bool)
      modifies this
      ensures targetIsOverlay ==> !shown && media == NoMedia
      ensures !targetIsOverlay ==> shown == old(shown) && media == old(media)
      ensures titleText == old(titleText) && descriptionText == old(descriptionText)
      ensures detailsHref == old(detailsHref) && tagSpans == old(tagSpans)
    {
      if targetIsOverlay {
        Close();
      }
    }
  }

  // ---------------------------------------------------------------------
  // Worked examples
  // ---------------------------------------------------------------------

  /** The tag list "Lead Developer,Project Manager" (segments `a` and `b`)
      gives two spans, a programmer tag and then a manager tag. */
  // The literals come in through `requires`: stated directly in the
  // `ensures`, they make the verifier unfold `Split` and `Classify` on
  // constant strings and run out of resource.
  lemma TwoRoleTags(tags: string, a: string, b: string)
    requires a == "Lead Developer" && b == "Project Manager"
    requires tags == a + "," + b
    ensures Spans(Split(tags)) == [TagSpan(a, "tag-prog"), TagSpan(b, "tag-pm")]
  {
    SplitTwo(tags, a, b);
    Tags.LeadDeveloperIsProg(a);
    Tags.ProjectManagerIsPm(b);
  }

  /** Video suffixes are matched case-sensitively; images and a missing
      path fall back to an image element. */
  lemma MediaKindExamples()
    ensures MediaKindOf(Present("demo.mp4")) == VideoKind
    ensures MediaKindOf(Present("demo.webm")) == VideoKind
    ensures MediaKindOf(Present("shot.png")) == ImageKind
    ensures MediaKindOf(Present("demo.MP4")) == ImageKind
    ensures MediaKindOf(Present("")) == ImageKind
    ensures MediaKindOf(Absent) == ImageKind
  {
    assert "demo.mp4"[4..] == ".mp4";
    assert "demo.webm"[4..] == ".webm";
    assert "shot.png"[4..] != ".mp4";
    assert "shot.png"[3..] != ".webm";
    assert "demo.MP4"[4..] != ".mp4";
    assert "demo.MP4"[3..] != ".webm";
  }
}
