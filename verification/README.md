# Movie card rating model

A Dafny model of the movie card of a movie-review landing page. The card
shows one movie: a "Movie"/"Series" badge, a read-only row of five stars
for the movie's average rating, and the first two genres with a "+n"
badge for the rest. Its details view holds an interactive five-star
control. The control has two pieces of local state: `userRating`, the
committed rating, and `hoveredRating`, the preview shown while the
pointer rests on a star. Both start at 0.

- `decimal.dfy` (module `Decimal`): the decimal text of a non-negative
  integer, as a star count or an overflow count appears on the page, and
  the reader that recovers the number from it.
- `movie_card.dfy` (module `MovieCard`): the movie record, the star-row
  rule, the type badge, the genre badges and the rating label as
  functions. The rating control is a pure transition function `Step`
  over click, enter and leave events, with `Run` for event sequences. The
  class `Card` has the fields `userRating` and `hoveredRating`, and its
  handler methods are specified by `Step`.
- `sample_movies.dfy` (module `SampleMovies`): the four featured movies
  of the landing page and what their cards show.

Interactive fill follows the code: the threshold is the JavaScript
`hoveredRating || userRating`. A non-zero hover value wins even when it is
smaller than the committed rating. The threshold is not the larger of the
two values: hovering star 2 over a committed 5 fills two stars
(`HoverPreviewFills`, `InteractiveFilledCount`).

## Model

| member | source | states |
|---|---|---|
| `MovieCard.RenderStars` | src/components/MovieCard.tsx:33-35 | every star row has exactly five stars, the star at index i has value i+1, and handlers are attached exactly in interactive mode |
| `MovieCard.StarsFilled` | src/components/MovieCard.tsx:36-38 | star v is filled iff v is at most the floor of the threshold (the rating when read-only, `hoveredRating \|\| userRating` when interactive), so the filled stars form a prefix, and their number is that floor clamped to 0..5 |
| `MovieCard.ReadOnlyFilledCount` | src/components/MovieCard.tsx:38 | a read-only row for a rating between 0 and 5 fills exactly floor(rating) stars, so 4.5 fills four |
| `MovieCard.InteractiveFilledCount` | src/components/MovieCard.tsx:37 | with a non-zero hover value the hover value alone decides how many stars are filled, whatever the committed rating; with hover 0 the committed rating decides |
| `MovieCard.TypeBadgeDistinguishes` | src/components/MovieCard.tsx:74 | the badge reads "Movie" exactly for a movie, and different kinds get different badge texts |
| `MovieCard.StepEffects` | src/components/MovieCard.tsx:27-28 | a click commits the star value and keeps the preview; enter sets and leave clears only the preview; events with star values 1..5 keep both variables in 0..5 |
| `MovieCard.RenderedStarEventsValid` | src/components/MovieCard.tsx:48-50 | an interactive star v raises only a click on v, an enter on v and a leave, so every event of a rendered row carries a star value 1..5; read-only stars raise no events |
| `MovieCard.RunKeepsValid` | src/components/MovieCard.tsx:24-25 | from the initial or any valid state, any sequence of events with star values 1..5 (all that rendered stars raise, by `RenderedStarEventsValid`) keeps both state variables within 0..5 |
| `MovieCard.HoverKeepsCommitted` | src/components/MovieCard.tsx:49-50 | any sequence of enter and leave events leaves the committed rating unchanged |
| `MovieCard.ClickPersists` | src/components/MovieCard.tsx:48-50 | after a click on star v, later hover cycles keep v committed, and once no star is hovered exactly v stars show filled |
| `MovieCard.LeaveShowsCommitted` | src/components/MovieCard.tsx:50 | after the pointer leaves, the interactive row is the one determined by the committed rating alone and shows that many stars (clamped to 0..5) |
| `MovieCard.EnterLeaveRestores` | src/components/MovieCard.tsx:49-50 | entering any star and leaving again, from a state without hover, restores the state and hence the star row exactly |
| `MovieCard.HoverPreviewFills` | src/components/MovieCard.tsx:49 | while the pointer is on star v, exactly v stars are filled, even below the committed rating |
| `MovieCard.UserRatingLabel` | src/components/MovieCard.tsx:127-129 | the label is absent exactly when the committed rating is not positive; when present it ends in "s" exactly when the rating exceeds 1 |
| `MovieCard.UserRatingLabelReadsBack` | src/components/MovieCard.tsx:129 | the label of a positive rating k is a numeral followed by " star" or " stars", and the numeral reads back as k |
| `MovieCard.GenreBadges` | src/components/MovieCard.tsx:152-160 | the summary shows the first min(2, n) genres in order, then one overflow badge with n-2 exactly when n > 2, and nothing else |
| `MovieCard.GenreBadgesAccountForAll` | src/components/MovieCard.tsx:152-160 | the genre names shown plus the overflow count equal the number of genres, so no genre goes unaccounted for |
| `MovieCard.OverflowBadgeText` | src/components/MovieCard.tsx:157-160 | the overflow badge reads "+" followed by a numeral whose value is the number of hidden genres |
| `MovieCard.Card.constructor` | src/components/MovieCard.tsx:23-25 | a new card holds its movie, with both the committed rating and the hover preview at 0 |
| `MovieCard.Card.HandleRating` | src/components/MovieCard.tsx:27-31 | a click sets `userRating` to the star value and leaves `hoveredRating` as it was (the `Click` step); valid values keep the card valid |
| `MovieCard.Card.MouseEnter` | src/components/MovieCard.tsx:49 | entering a star sets `hoveredRating` to its value and leaves `userRating` as it was (the `Enter` step) |
| `MovieCard.Card.MouseLeave` | src/components/MovieCard.tsx:50 | leaving a star sets `hoveredRating` to 0 and leaves `userRating` as it was (the `Leave` step) |
| `Decimal.FromNat` | src/components/MovieCard.tsx:129 | a number renders as at least one digit, with no leading zero |
| `Decimal.ToNatFromNat` | src/components/MovieCard.tsx:159 | reading the rendered numeral back gives the number that was rendered |
| `SampleMovies.FeaturedSummaryStars` | src/pages/Index.tsx:21-58 | each featured rating (4.2, 4.5, 4.3, 4.8) fills four summary stars and leaves the fifth empty |
| `SampleMovies.FeaturedGenreBadges` | src/pages/Index.tsx:21-37 | The Batman's three genres show as "Action", "Crime" and "+1"; Dune's two genres show with no overflow badge |
| `SampleMovies.DuneSession` | src/pages/Index.tsx:30-37 | Dune's card shows a "Movie" badge, four filled summary stars and its two genres; clicking star 5 and then hovering star 2 shows 2 filled stars; after the pointer leaves it shows 5, labelled "5 stars" |

## Left out

- Logging: the `console.log` call in `handleRating` (src/components/MovieCard.tsx:30) is output with no effect on state.
- Rendering: JSX, CSS class strings, images, icons and the details dialog's open and closed state. These are library UI with no contract to state. The model keeps only the values the card shows: star fill, handler attachment, badge texts and label text.
- Raw fields in the details view: the list of all genres (src/components/MovieCard.tsx:116-120), the raw `type` text (:103) and the year. They are shown as given, with no logic.
- `MovieCard.Card.HandleRating`, `MovieCard.Card.MouseEnter`: the handlers accept any integer, as the code does. Staying within 0..5 holds only for the star values 1..5 that rendered stars pass, so those methods and `RunKeepsValid` state it under that condition.
- Decimal text of the movie's average rating (:109, :147): the JavaScript text of a non-integer number is not modelled. Only the integer counts (the user rating and the overflow count) are rendered as text.
- React semantics: re-rendering and the batching or scheduling of `useState` updates. Each handler is one atomic, synchronous state update.
- src/pages/Index.tsx: page layout and its boolean flags (menu, auth dialog, login) are set by trivial setters. The auth modal component is not part of this model. Only the sample movie data is used.
- src/components/SearchBar.tsx: it passes the input text to its parent unchanged, and no search or filtering exists.
