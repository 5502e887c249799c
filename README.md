# Portfolio page behaviour, modelled in Dafny

This project models the sequential logic in `script.js`, the script behind a static personal portfolio site. The script wires five independent page components to DOM events. Each event handler is modelled as a deterministic update of a small state:

- **Theme toggle** (`theme.dfy`, module `Theme`). A click flips the body's `light-mode` class and relabels the button.
- **Carousel** (`carousel.dfy`, module `Carousel`). It has a card count, a card width, a number of visible slides and a current index. `moveToSlide` clamps a target index, and next, previous and window resize go through it.
- **Tag classifier** (`tags.dfy`, module `Tags`). `createTagSpan` lower-cases a tag and tests keyword rules in a fixed order. The first matching rule picks one of seven style classes.
- **Project modal** (`modal.dfy`, module `Modal`). Clicking a card copies its data attributes into the overlay panel:
  - the title becomes `[ <title>.exe ]`;
  - the media path picks a video or an image;
  - the tag list is split on commas into classified spans.

  The close control, or a click on the overlay itself, hides the panel and empties the media box.
- **Project filter** (`filter.dfy`, module `Filter`). A click on a filter button makes it the only active button. It then shows or hides every grid card by comparing its category with the button's filter value.

`dataset.dfy` (module `Dataset`) models a card's `data-*` attribute values. An absent attribute reads as JavaScript `undefined`.

State that the script changes in place is modelled as classes:

- `Theme.ThemeToggle`
- `Carousel.CarouselState`
- `Modal.ProjectModal`
- `Filter.FilterBar`, which holds the button and card flags as arrays that its loops update

The decisions the handlers make are pure functions: the clamp, the classifier, the comma split, the media kind and the title format. The class methods are proved against these functions, and the properties are proved about the functions.

### Where the model follows the code rather than the intended behaviour

A natural reading of the carousel is that when all cards fit (`slidesVisible >= cards.length`), both bounds collapse to 0 and the carousel cannot move. The code at script.js:48-53 does not do that. It tests the lower bound first and tests the upper bound only if the lower one did not fire. With a negative `maxIndex`, every non-negative target therefore becomes that negative `maxIndex`. The model keeps this behaviour:

- `Carousel.ClampOverfull` states it.
- `Carousel.ReclampAlternates` shows its consequence: with the sizing unchanged, each resize moves the index between `maxIndex` and 0.
- For a negative index the transform string is `translateX(--…px)`, which is not a valid transform. The browser ignores it and keeps the previous shift, and `CarouselState.MoveTo` models exactly that.

## Model

| member | source | states |
|---|---|---|
| `Theme.Label` | script.js:15-19 | The label is "Dark Mode" exactly when light mode is on, and "Light Mode" exactly when it is off |
| `Theme.AfterClick` | script.js:10-20 | A click flips the mode, and the new label is "Dark Mode" exactly when the new mode is light |
| `Theme.TwoClicksRestore` | script.js:10-20 | Two clicks restore the mode. They restore the whole view exactly when the label already matched the mode |
| `Theme.ClicksParity` | script.js:10-20 | After n clicks the mode is flipped exactly when n is odd, and after at least one click the label matches the mode |
| `Theme.ThemeToggle.Click` | script.js:10-20 | The click handler moves the toggle's view to `AfterClick` of its previous view |
| `Carousel.MaxIndex` | script.js:48 | `maxIndex` plus the visible count is the card count, and it is negative exactly when more cards fit than exist |
| `Carousel.Clamp` | script.js:47-53 | The clamped index is the target, 0 or `maxIndex`. It lies in `[0, maxIndex]` whenever `maxIndex >= 0`, and an in-range target is kept |
| `Carousel.ClampOverfull` | script.js:48-53 | When more cards fit than exist, a negative target gives 0 and any other target gives the negative `maxIndex` |
| `Carousel.ReachableInRange` | script.js:47-57 | With at least as many cards as fit, every index `moveToSlide` can leave is in `[0, cards.length - slidesVisible]` |
| `Carousel.ReclampStable` | script.js:70-73 | With at least as many cards as fit and the sizing unchanged, the resize re-clamp keeps the index |
| `Carousel.ReclampAlternates` | script.js:70-73 | When more cards fit than exist, re-clamping sends `maxIndex` to 0 and 0 to `maxIndex` |
| `Carousel.NextSaturates` | script.js:60-62 | From a valid index, k next clicks give `min(index + k, maxIndex)` |
| `Carousel.PrevSaturates` | script.js:65-67 | From a valid index, k previous clicks give `max(index - k, 0)`, so previous at 0 stays at 0 |
| `Carousel.SevenCardsThreeVisible` | script.js:47-62 | With 7 cards and 3 visible, `maxIndex` is 4, and six next clicks from 0 end at 4 |
| `Carousel.VisibleCount` | script.js:39 | Over integer widths, the visible count is at least 1 and is the largest number of whole cards that fit (or 1 if none fit) |
| `Carousel.CarouselState.constructor` | script.js:32-44 | Set-up computes the sizing, starts at index 0 with no shift, and establishes the invariant |
| `Carousel.CarouselState.UpdateSizing` | script.js:37-40 | Stores the new card width and the visible count for it. The index and the shift are unchanged |
| `Carousel.CarouselState.MoveTo` | script.js:47-57 | The index becomes `Clamp(target)`. The shift becomes `cardWidth * index` when the index is non-negative, and is otherwise kept |
| `Carousel.CarouselState.Next` | script.js:60-62 | The index becomes `Clamp(index + 1)`. The shift becomes `cardWidth * index` when the new index is non-negative, and is otherwise kept. The invariant is kept |
| `Carousel.CarouselState.Prev` | script.js:65-67 | The index becomes `Clamp(index - 1)`, and the invariant is kept |
| `Carousel.CarouselState.Resize` | script.js:70-73 | Re-measures, then re-clamps the old index under the new sizing. The shift becomes `cardWidth * index` when the re-clamped index is non-negative, and is otherwise kept |
| `Tags.ClassName` | script.js:142-154 | Every class name starts with "tag-" |
| `Tags.ClassNamesDistinct` | script.js:142-154 | Different classes get different class names |
| `Tags.ToLower` | script.js:140 | Lower-casing keeps the length, maps each character through ASCII lower-casing, and leaves no upper-case letter |
| `Tags.ToLowerIdempotent` | script.js:140 | Lower-casing twice is the same as lower-casing once |
| `Tags.Includes` | script.js:141-151 | `includes` holds exactly when the keyword occurs at some position of the text |
| `Tags.Classify` | script.js:140-155 | The class is the first rule in the order programmer/developer, manager, artist, design, java, backend whose keyword occurs in the lower-cased tag. The fallback applies only when no rule fires |
| `Tags.FirstMatchUnique` | script.js:140-155 | At most one class satisfies the first-match rule, so exactly one class is assigned |
| `Tags.ClassifyIgnoresCase` | script.js:140-155 | Tags that differ only in the case of ASCII letters get the same class |
| `Tags.ClassifyLowered` | script.js:140-155 | Classifying the lower-cased tag gives the tag's own class |
| `Tags.LeadDeveloperIsProg` | script.js:141-142 | "Lead Developer" is classified as a programmer tag |
| `Tags.ProjectManagerIsPm` | script.js:141-144 | "Project Manager" fails both programmer keywords and is classified as a manager tag |
| `Modal.Split` | script.js:166 | Splitting always yields at least one segment |
| `Modal.SplitCount` | script.js:166 | The number of segments is the number of commas plus one |
| `Modal.SplitSegmentsCommaFree` | script.js:166 | No segment contains a comma |
| `Modal.JoinSplit` | script.js:166 | Joining the segments with commas gives back the string: nothing is trimmed, dropped or reordered |
| `Modal.SplitJoin` | script.js:166 | Splitting a comma-join of comma-free segments gives back those segments in order |
| `Modal.EndsWith` | script.js:175 | `endsWith` holds exactly when the string is some prefix followed by the suffix |
| `Modal.MediaKindOf` | script.js:175 | The media is a video exactly when the path is present and ends, case-sensitively, in ".mp4" or ".webm" |
| `Modal.MediaFor` | script.js:175-180 | A video element carries the path. An image element carries the path text and the alt text "<title> media". Some element is always rendered |
| `Dataset.Text` | script.js:170-179 | Shape only: a missing attribute is written as "undefined" and a present one unchanged. Its uses are stated by `Modal.TitleText`, `Modal.MediaFor` and `Modal.ProjectModal.Open` |
| `Modal.CreateTagSpan` | script.js:135-157 | Shape only: the span keeps the tag text and carries the class name of `Classify`. What the class means is stated by `Tags.Classify` |
| `Modal.Spans` | script.js:184-186 | Shape only: one span per tag, in order. What the spans hold is stated by `Modal.SpansKeepTagList` and `Modal.ProjectModal.Open` |
| `Modal.TitleText` | script.js:170 | The heading is "[ ", the title unchanged, then ".exe ]" |
| `Modal.SpansKeepTagList` | script.js:166-186 | There are commas + 1 spans, and their texts joined with commas give back the card's tag list |
| `Modal.TwoRoleTags` | script.js:166-186 | "Lead Developer,Project Manager" gives a `tag-prog` span and then a `tag-pm` span |
| `Modal.MediaKindExamples` | script.js:175 | ".mp4" and ".webm" paths are videos; ".png", ".MP4", empty and missing paths are images |
| `Modal.ProjectModal.Open` | script.js:161-192 | A card without `data-tags` throws at the split and leaves the panel unchanged. Otherwise the panel holds the card's title text, description, link, media and one span per tag segment, and is shown |
| `Modal.ProjectModal.Close` | script.js:198-201 | Hides the overlay and empties the media box. Title, description, link and tags are kept |
| `Modal.ProjectModal.OverlayClick` | script.js:204-209 | A click on the overlay closes the panel only when the overlay itself is the target. Otherwise nothing changes |
| `Filter.Shows` | script.js:235 | The "all" filter shows a card. Any other filter shows it exactly when the card's category is `===` to the filter, so two missing attributes match |
| `Filter.AllShowsEvery` | script.js:235 | The "all" filter shows every card |
| `Filter.CategoryShowsOnlyItsCards` | script.js:235 | Any other filter value shows a card exactly when the card's category equals it |
| `Filter.OneHotCount` | script.js:228-229 | A flag row with exactly one set position has exactly one set flag |
| `Filter.ShownFlagsCount` | script.js:232-240 | Flags that follow the filter card by card show as many cards as the filter selects |
| `Filter.AllShowsWholeGrid` | script.js:232-240 | The "all" filter shows the whole grid |
| `Filter.FilterBar.Click` | script.js:224-241 | Exactly the clicked button is active. Each card is shown exactly when the filter is "all" or equals its category, and the number shown is what the filter selects |

## Left out

- Hover preview (script.js:82-115): left out. It consists of timer scheduling (a 2000 ms `setTimeout` and `clearTimeout` on a variable shared by all cards) and asynchronous `video.play()` with a swallowed rejection. Those are event timing, not sequential logic.
- DOM lookup and event registration (`getElementById`, `querySelector`, `addEventListener`, `DOMContentLoaded`): left out. Each component's elements are taken as given and present, so the `if (modal)` test at script.js:189 and the null-element cases are not modelled.
- `Carousel.CarouselState.constructor`: requires at least one card. With an empty track, script.js:34 throws a TypeError inside the DOMContentLoaded handler, so the hover, modal and filter handlers are never wired. That failure is not modelled.
- `Carousel.VisibleCount`: widths are whole pixels and the card width is positive. Floating-point layout values (`getBoundingClientRect().width`, `clientWidth`) and the Infinity/NaN results of a zero card width are not modelled.
- `Carousel.CarouselState.MoveTo`: the transform is modelled as a shift in pixels, not as the `translateX` string.
- `Modal.ProjectModal.Open`: innerHTML markup, attribute escaping and URL resolution of the details link are not modelled. The media is recorded as the element kind with its `src`/`alt` text, and the link as the attribute's text.
- Video playback: closing is modelled only as emptying the media box.
- `Tags.ToLower`: lower-cases ASCII letters only. Unicode case mapping in `toLowerCase` is not modelled.
- `Filter.FilterBar`: a card's display is modelled as shown or hidden. The markup's initial empty `style.display` is taken as one of the two.
