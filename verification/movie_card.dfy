/** The movie card: a summary of one movie (type badge, read-only stars,
    genre badges) and a details view holding an interactive five-star
    control whose committed rating and hover preview are the card's local
    state. */
module MovieCard {
  import Decimal

  datatype Option<T> = None | Some(value: T)

  /** The two values of a movie's `type` field: "movie" and "series". */
  datatype Kind = MovieKind | SeriesKind

  /** A movie as the card receives it; `rating` is the displayed average. */
  datatype Movie = Movie(
    id: int,
    title: string,
    genre: seq<string>,
    rating: real,
    year: int,
    poster: string,
    kind: Kind)

  /** Number of stars every star row has. */
  const StarCount: nat := 5

  function Min(a: int, b: int): int {
    if a <= b then a else b
  }

  function Clamp(x: int, lo: int, hi: int): int
    requires lo <= hi
  {
    if x < lo then lo else if x > hi then hi else x
  }

  // ---------------------------------------------------------------------
  // Type badge

  /** Text of the badge in the poster's corner. */
  function TypeBadge(kind: Kind): string {
    if kind == MovieKind then "Movie" else "Series"
  }

  /** The badge tells a movie from a series: different kinds get different
      texts, "Movie" for a movie and "Series" for a series. */
  lemma TypeBadgeDistinguishes(a: Kind, b: Kind)
    ensures TypeBadge(a) == TypeBadge(b) <==> a == b
    ensures TypeBadge(a) == "Movie" <==> a == MovieKind
  {
    assert "Movie"[0] != "Series"[0];
  }

  // ---------------------------------------------------------------------
  // Star rows

  /** One rendered star. `interactive` records whether the click, enter and
      leave handlers are attached to it. */
  datatype Star = Star(value: int, filled: bool, interactive: bool)

  /** The JavaScript `hoveredRating || userRating`: a non-zero hover value
      wins, whether it is larger or smaller than the committed one. */
  function Preview(hovered: int, user: int): int {
    if hovered != 0 then hovered else user
  }

  /** The number every star value is compared with: the preview in
      interactive mode, the given rating otherwise. */
  function Threshold(rating: real, interactive: bool, hovered: int, user: int): real {
    if interactive then Preview(hovered, user) as real else rating
  }

  /** The star row: five stars with values 1 to 5, star v filled when
      v is at most the threshold. */
  function RenderStars(rating: real, interactive: bool, hovered: int, user: int): (stars: seq<Star>)
    ensures |stars| == StarCount
    ensures forall i :: 0 <= i < |stars| ==> stars[i].value == i + 1 && stars[i].interactive == interactive
  {
    seq(StarCount, i => Star(i + 1, (i + 1) as real <= Threshold(rating, interactive, hovered, user), interactive))
  }

  /** Filled stars come first: no empty star precedes a filled one. */
  predicate FilledPrefix(stars: seq<Star>) {
    forall i, j :: 0 <= i < j < |stars| && stars[j].filled ==> stars[i].filled
  }

  function FilledCount(stars: seq<Star>): nat
    decreases |stars|
  {
    if stars == [] then 0 else (if stars[0].filled then 1 else 0) + FilledCount(stars[1..])
  }

  /** A row whose first k stars are exactly the filled ones has k filled
      stars, cut to the row's length. */
  lemma {:induction false} FilledCountOfPrefix(stars: seq<Star>, k: int)
    requires forall i :: 0 <= i < |stars| ==> (stars[i].filled <==> i < k)
    ensures FilledCount(stars) == Clamp(k, 0, |stars|)
    decreases |stars|
  {
    if stars != [] {
      var rest := stars[1..];
      forall i | 0 <= i < |rest| ensures rest[i].filled <==> i < k - 1 {
        assert rest[i] == stars[i + 1];
      }
      FilledCountOfPrefix(rest, k - 1);
    }
  }

  /** Star v is filled exactly when v is at most the threshold; the filled
      stars form a prefix, and their number is the threshold's floor cut to
      0..5 (a rating of 4.5 fills four stars). */
  lemma StarsFilled(rating: real, interactive: bool, hovered: int, user: int)
    ensures var stars := RenderStars(rating, interactive, hovered, user);
      var t := Threshold(rating, interactive, hovered, user);
      && (forall i :: 0 <= i < StarCount ==> (stars[i].filled <==> i + 1 <= t.Floor))
      && FilledPrefix(stars)
      && FilledCount(stars) == Clamp(t.Floor, 0, StarCount)
  {
    var stars := RenderStars(rating, interactive, hovered, user);
    var t := Threshold(rating, interactive, hovered, user);
    forall i | 0 <= i < |stars| ensures stars[i].filled <==> i < t.Floor {
      assert stars[i].filled <==> (i + 1) as real <= t;
    }
    FilledCountOfPrefix(stars, t.Floor);
  }

  /** Read-only mode: a rating between 0 and 5 fills exactly its floor. */
  lemma ReadOnlyFilledCount(rating: real, hovered: int, user: int)
    requires 0.0 <= rating <= StarCount as real
    ensures FilledCount(RenderStars(rating, false, hovered, user)) == rating.Floor
  {
    StarsFilled(rating, false, hovered, user);
  }

  /** Interactive mode: a non-zero hover value alone decides the fill, even
      below the committed rating; without hover the committed rating does. */
  lemma InteractiveFilledCount(rating: real, hovered: int, user: int)
    ensures hovered != 0 ==> FilledCount(RenderStars(rating, true, hovered, user)) == Clamp(hovered, 0, StarCount)
    ensures hovered == 0 ==> FilledCount(RenderStars(rating, true, hovered, user)) == Clamp(user, 0, StarCount)
  {
    StarsFilled(rating, true, hovered, user);
  }

  // ---------------------------------------------------------------------
  // The rating control as a state machine

  /** The card's two state variables: the committed rating and the hover
      preview, 0 meaning "none". */
  datatype RatingState = RatingState(user: int, hovered: int)

  const Initial: RatingState := RatingState(0, 0)

  /** The three events of an interactive star: click on star v, pointer
      entering star v, pointer leaving a star. */
  datatype Event = Click(star: int) | Enter(star: int) | Leave

  predicate ValidState(s: RatingState) {
    0 <= s.user <= StarCount && 0 <= s.hovered <= StarCount
  }

  /** Events with a star value 1..5, as rendered stars raise them
      (`RenderedStarEventsValid`). */
  predicate ValidEvent(e: Event) {
    match e
    case Click(v) => 1 <= v <= StarCount
    case Enter(v) => 1 <= v <= StarCount
    case Leave => true
  }

  /** The events a rendered star raises: an interactive star v raises a
      click on v, an enter on v and a leave; a read-only star raises none. */
  function StarEvents(st: Star): set<Event> {
    if st.interactive then {Click(st.value), Enter(st.value), Leave} else {}
  }

  /** Every event that a star of a rendered row can raise carries a star
      value 1..5, and the stars of a read-only row raise no events. */
  lemma RenderedStarEventsValid(rating: real, interactive: bool, hovered: int, user: int)
    ensures var stars := RenderStars(rating, interactive, hovered, user);
      && (forall i, e :: 0 <= i < |stars| && e in StarEvents(stars[i]) ==> ValidEvent(e))
      && (!interactive ==> forall i :: 0 <= i < |stars| ==> StarEvents(stars[i]) == {})
  {
    var stars := RenderStars(rating, interactive, hovered, user);
    forall i, e | 0 <= i < |stars| && e in StarEvents(stars[i]) ensures ValidEvent(e) {
      assert stars[i].value == i + 1;
    }
  }

  /** The effect of one event handler. */
  function Step(s: RatingState, e: Event): RatingState {
    match e
    case Click(v) => s.(user := v)
    case Enter(v) => s.(hovered := v)
    case Leave => s.(hovered := 0)
  }

  /** The effect of a sequence of events, handled one after another. */
  function Run(s: RatingState, events: seq<Event>): RatingState
    decreases |events|
  {
    if events == [] then s else Run(Step(s, events[0]), events[1..])
  }

  /** The interactive star row of the details view for a given state. */
  function RatingStars(s: RatingState): seq<Star> {
    RenderStars(s.user as real, true, s.hovered, s.user)
  }

  predicate NoClicks(events: seq<Event>) {
    forall i :: 0 <= i < |events| ==> !events[i].Click?
  }

  /** Clicking sets the committed rating and leaves the preview alone;
      entering and leaving change only the preview. */
  lemma StepEffects(s: RatingState, e: Event)
    ensures e.Click? ==> Step(s, e).user == e.star && Step(s, e).hovered == s.hovered
    ensures !e.Click? ==> Step(s, e).user == s.user
    ensures e.Enter? ==> Step(s, e).hovered == e.star
    ensures e.Leave? ==> Step(s, e).hovered == 0
    ensures ValidState(s) && ValidEvent(e) ==> ValidState(Step(s, e))
  {
  }

  /** Handling events one after another composes. */
  lemma {:induction false} RunAppend(s: RatingState, a: seq<Event>, b: seq<Event>)
    ensures Run(s, a + b) == Run(Run(s, a), b)
    decreases |a|
  {
    if a != [] {
      assert (a + b)[0] == a[0];
      assert (a + b)[1..] == a[1..] + b;
      RunAppend(Step(s, a[0]), a[1..], b);
    } else {
      assert a + b == b;
    }
  }

  /** Star values 1..5 keep both state variables within 0..5. */
  lemma {:induction false} RunKeepsValid(s: RatingState, events: seq<Event>)
    requires ValidState(s)
    requires forall i :: 0 <= i < |events| ==> ValidEvent(events[i])
    ensures ValidState(Run(s, events))
    decreases |events|
  {
    if events != [] {
      StepEffects(s, events[0]);
      RunKeepsValid(Step(s, events[0]), events[1..]);
    }
  }

  /** Hovering and leaving, however often, never change the committed rating. */
  lemma {:induction false} HoverKeepsCommitted(s: RatingState, events: seq<Event>)
    requires NoClicks(events)
    ensures Run(s, events).user == s.user
    decreases |events|
  {
    if events != [] {
      HoverKeepsCommitted(Step(s, events[0]), events[1..]);
    }
  }

  /** After a click on star v, the committed rating stays v through any
      later hover cycles, and once the pointer has left, v stars show filled. */
  lemma ClickPersists(s: RatingState, before: seq<Event>, v: int, after: seq<Event>)
    requires 1 <= v <= StarCount
    requires NoClicks(after)
    ensures var t := Run(s, before + [Click(v)] + after);
      && t.user == v
      && (t.hovered == 0 ==> FilledCount(RatingStars(t)) == v)
  {
    RunAppend(s, before + [Click(v)], after);
    RunAppend(s, before, [Click(v)]);
    var t := Run(s, before + [Click(v)] + after);
    HoverKeepsCommitted(Run(s, before + [Click(v)]), after);
    InteractiveFilledCount(t.user as real, t.hovered, t.user);
  }

  /** Once the pointer leaves, the row shows the committed rating alone. */
  lemma LeaveShowsCommitted(s: RatingState)
    ensures RatingStars(Step(s, Leave)) == RenderStars(s.user as real, true, 0, s.user)
    ensures FilledCount(RatingStars(Step(s, Leave))) == Clamp(s.user, 0, StarCount)
  {
    InteractiveFilledCount(s.user as real, 0, s.user);
  }

  /** Entering a star and leaving again, from a state without hover,
      restores the state and hence the row exactly. */
  lemma EnterLeaveRestores(s: RatingState, v: int)
    requires s.hovered == 0
    ensures Run(s, [Enter(v), Leave]) == s
    ensures RatingStars(Run(s, [Enter(v), Leave])) == RatingStars(s)
  {
    assert [Enter(v), Leave][1..] == [Leave];
    assert Run(s, [Enter(v), Leave]) == Run(s.(hovered := v), [Leave]);
  }

  /** While the pointer is on star v, v stars show filled, whatever the
      committed rating (a hover of 2 over a committed 5 shows 2). */
  lemma HoverPreviewFills(s: RatingState, v: int)
    requires 1 <= v <= StarCount
    ensures FilledCount(RatingStars(Step(s, Enter(v)))) == v
  {
    InteractiveFilledCount(s.user as real, v, s.user);
  }

  // ---------------------------------------------------------------------
  // "Your Rating" label

  /** The text beside the interactive row: absent while nothing is
      committed, otherwise "<k> star", with an "s" when k exceeds 1. */
  function UserRatingLabel(userRating: int): (shown: Option<string>)
    ensures shown.None? <==> userRating <= 0
    ensures shown.Some? ==> |shown.value| > 0 && (shown.value[|shown.value| - 1] == 's' <==> userRating > 1)
  {
    if userRating > 0 then
      Some(Decimal.FromNat(userRating) + (if userRating > 1 then " stars" else " star"))
    else
      None
  }

  /** Reads a rating label: a numeral followed by " star" or " stars". */
  function ReadRatingLabel(text: string): Option<nat> {
    var k := Decimal.DigitRun(text);
    if k > 0 && (text[k..] == " star" || text[k..] == " stars") then Some(Decimal.ToNat(text[..k])) else None
  }

  /** The label names the committed rating: reading it back gives k. */
  lemma UserRatingLabelReadsBack(userRating: int)
    requires userRating > 0
    ensures ReadRatingLabel(UserRatingLabel(userRating).value) == Some(userRating)
  {
    var d := Decimal.FromNat(userRating);
    var suffix := if userRating > 1 then " stars" else " star";
    var text := d + suffix;
    Decimal.DigitRunOfNumeral(d, suffix);
    assert text[..|d|] == d;
    assert text[|d|..] == suffix;
    Decimal.ToNatFromNat(userRating);
  }

  // ---------------------------------------------------------------------
  // Genre badges of the summary

  /** A badge of the summary: a genre name, or the "+n" count of the genres
      not shown. */
  datatype Badge = GenreBadge(name: string) | OverflowBadge(hidden: nat)

  function BadgeText(b: Badge): string {
    match b
    case GenreBadge(name) => name
    case OverflowBadge(n) => "+" + Decimal.FromNat(n)
  }

  /** The summary's badges: the first two genres in order, then an overflow
      badge with the number of remaining genres when there are more than two. */
  function GenreBadges(genre: seq<string>): (badges: seq<Badge>)
    ensures |badges| == if |genre| > 2 then 3 else |genre|
    ensures forall i :: 0 <= i < Min(2, |genre|) ==> badges[i] == GenreBadge(genre[i])
    ensures forall i :: 0 <= i < |badges| ==> (badges[i].OverflowBadge? <==> i == 2)
    ensures |genre| > 2 ==> badges[2].hidden == |genre| - 2
  {
    var shown := genre[..Min(2, |genre|)];
    seq(|shown|, i requires 0 <= i < |shown| => GenreBadge(shown[i]))
      + (if |genre| > 2 then [OverflowBadge(|genre| - 2)] else [])
  }

  /** How many genres a badge list stands for: one per name badge, the
      count of an overflow badge. */
  function Represented(badges: seq<Badge>): nat
    decreases |badges|
  {
    if badges == [] then 0
    else (match badges[0] case GenreBadge(_) => 1 case OverflowBadge(n) => n) + Represented(badges[1..])
  }

  lemma {:induction false} RepresentedNames(badges: seq<Badge>)
    requires forall i :: 0 <= i < |badges| ==> badges[i].GenreBadge?
    ensures Represented(badges) == |badges|
    decreases |badges|
  {
    if badges != [] {
      RepresentedNames(badges[1..]);
    }
  }

  lemma {:induction false} RepresentedAppend(a: seq<Badge>, b: seq<Badge>)
    ensures Represented(a + b) == Represented(a) + Represented(b)
    decreases |a|
  {
    if a != [] {
      assert (a + b)[0] == a[0];
      assert (a + b)[1..] == a[1..] + b;
      RepresentedAppend(a[1..], b);
    } else {
      assert a + b == b;
    }
  }

  /** Every genre is accounted for: the names shown plus the overflow count
      equal the number of genres. */
  lemma GenreBadgesAccountForAll(genre: seq<string>)
    ensures Represented(GenreBadges(genre)) == |genre|
  {
    var badges := GenreBadges(genre);
    var m := Min(2, |genre|);
    RepresentedAppend(badges[..m], badges[m..]);
    assert badges == badges[..m] + badges[m..];
    RepresentedNames(badges[..m]);
    if |genre| > 2 {
      assert badges[m..] == [OverflowBadge(|genre| - 2)];
      assert badges[m..][1..] == [];
    } else {
      assert badges[m..] == [];
    }
  }

  /** The overflow badge reads "+" followed by the number of hidden genres. */
  lemma OverflowBadgeText(genre: seq<string>)
    requires |genre| > 2
    ensures var text := BadgeText(GenreBadges(genre)[2]);
      text[0] == '+' && Decimal.AllDigits(text[1..]) && Decimal.ToNat(text[1..]) == |genre| - 2
  {
    var text := BadgeText(GenreBadges(genre)[2]);
    assert text[1..] == Decimal.FromNat(|genre| - 2);
    Decimal.ToNatFromNat(|genre| - 2);
  }

  // ---------------------------------------------------------------------
  // The component

  /** One mounted card: the movie it shows and its two pieces of state. */
  class Card {
    const movie: Movie
    var userRating: int
    var hoveredRating: int

    function State(): RatingState
      reads this
    {
      RatingState(userRating, hoveredRating)
    }

    predicate Valid()
      reads this
    {
      ValidState(State())
    }

    /** Mounting starts with nothing committed and nothing hovered. */
    constructor (movie: Movie)
      ensures this.movie == movie
      ensures State() == Initial && Valid()
    {
      this.movie := movie;
      userRating := 0;
      hoveredRating := 0;
    }

    /** Click on a star: commit its value. */
    method HandleRating(rating: int)
      modifies this
      ensures State() == Step(old(State()), Click(rating))
      ensures userRating == rating && hoveredRating == old(hoveredRating)
      ensures old(Valid()) && ValidEvent(Click(rating)) ==> Valid()
    {
      userRating := rating;
    }

    /** Pointer enters a star: preview its value. */
    method MouseEnter(starValue: int)
      modifies this
      ensures State() == Step(old(State()), Enter(starValue))
      ensures hoveredRating == starValue && userRating == old(userRating)
      ensures old(Valid()) && ValidEvent(Enter(starValue)) ==> Valid()
    {
      hoveredRating := starValue;
    }

    /** Pointer leaves a star: drop the preview. */
    method MouseLeave()
      modifies this
      ensures State() == Step(old(State()), Leave)
      ensures hoveredRating == 0 && userRating == old(userRating)
      ensures old(Valid()) ==> Valid()
    {
      hoveredRating := 0;
    }

    /** The read-only row beside the movie's average rating. */
    function SummaryStars(): seq<Star>
      reads this
    {
      RenderStars(movie.rating, false, hoveredRating, userRating)
    }

    /** The interactive row of the details view. */
    function YourRatingStars(): seq<Star>
      reads this
    {
      RatingStars(State())
    }

    function YourRatingLabel(): Option<string>
      reads this
    {
      UserRatingLabel(userRating)
    }

    function SummaryGenres(): seq<Badge>
      reads this
    {
      GenreBadges(movie.genre)
    }

    function TypeLabel(): string
      reads this
    {
      TypeBadge(movie.kind)
    }
  }
}
