/** The featured movies of the landing page, and what their cards show. */
module SampleMovies {
  import Decimal
  import opened MovieCard

  const Batman: Movie := Movie(1, "The Batman", ["Action", "Crime", "Drama"], 4.2, 2022,
    "https://images.unsplash.com/photo-1489599904821-b33ee45b8a82?w=400&h=600&fit=crop", MovieKind)
  const Dune: Movie := Movie(2, "Dune", ["Sci-Fi", "Adventure"], 4.5, 2021,
    "https://images.unsplash.com/photo-1440404653325-ab127d49abc1?w=400&h=600&fit=crop", MovieKind)
  const TheCrown: Movie := Movie(3, "The Crown", ["Drama", "Biography"], 4.3, 2016,
    "https://images.unsplash.com/photo-1507003211169-0a1dd7228f2d?w=400&h=600&fit=crop", SeriesKind)
  const Interstellar: Movie := Movie(4, "Interstellar", ["Sci-Fi", "Drama"], 4.8, 2014,
    "https://images.unsplash.com/photo-1446776877081-d282a0f896e2?w=400&h=600&fit=crop", MovieKind)

  /** Every featured rating fills four stars of the summary row, and the
      fifth star stays empty. */
  lemma FeaturedSummaryStars(m: Movie)
    requires m in [Batman, Dune, TheCrown, Interstellar]
    ensures FilledCount(RenderStars(m.rating, false, 0, 0)) == 4
    ensures !RenderStars(m.rating, false, 0, 0)[4].filled
  {
    ReadOnlyFilledCount(m.rating, 0, 0);
    StarsFilled(m.rating, false, 0, 0);
  }

  /** The Batman's three genres show as two names and a "+1" badge; Dune's
      two genres show as two names and no overflow badge. */
  lemma FeaturedGenreBadges()
    ensures GenreBadges(Batman.genre) == [GenreBadge("Action"), GenreBadge("Crime"), OverflowBadge(1)]
    ensures BadgeText(GenreBadges(Batman.genre)[2]) == "+1"
    ensures GenreBadges(Dune.genre) == [GenreBadge("Sci-Fi"), GenreBadge("Adventure")]
  {
    var b := GenreBadges(Batman.genre);
    assert b[0] == GenreBadge("Action") && b[1] == GenreBadge("Crime") && b[2] == OverflowBadge(1);
    var d := GenreBadges(Dune.genre);
    assert d[0] == GenreBadge("Sci-Fi") && d[1] == GenreBadge("Adventure");
  }

  /** A session on Dune's card: its summary, then nothing committed at
      first, a click on the fifth star, a hover over the second, and the
      pointer leaves. */
  method DuneSession() returns (badge: string, summaryFilled: nat, genres: seq<Badge>,
                                duringHover: nat, afterLeave: nat, caption: Option<string>)
    ensures badge == "Movie" && summaryFilled == 4
    ensures genres == [GenreBadge("Sci-Fi"), GenreBadge("Adventure")]
    ensures duringHover == 2 && afterLeave == 5
    ensures caption == Some("5 stars")
  {
    var card := new Card(Dune);
    badge := card.TypeLabel();
    ReadOnlyFilledCount(Dune.rating, card.hoveredRating, card.userRating);
    summaryFilled := FilledCount(card.SummaryStars());
    FeaturedGenreBadges();
    genres := card.SummaryGenres();
    InteractiveFilledCount(0.0, 0, 0);
    assert FilledCount(card.YourRatingStars()) == 0;
    assert card.YourRatingLabel() == None;
    card.HandleRating(5);
    card.MouseEnter(2);
    HoverPreviewFills(RatingState(5, 0), 2);
    duringHover := FilledCount(card.YourRatingStars());
    card.MouseLeave();
    LeaveShowsCommitted(RatingState(5, 2));
    afterLeave := FilledCount(card.YourRatingStars());
    caption := card.YourRatingLabel();
    assert Decimal.FromNat(5) == "5" by { assert Decimal.DigitChar(5) == '5'; }
    assert caption == Some(Decimal.FromNat(5) + " stars");
    assert "5" + " stars" == "5 stars";
  }
}
