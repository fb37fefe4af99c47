/** The vertical layout of the stats card: a fixed header, then up to four
    optional rows stacked one below the other. */
module Layout {

  /** Which rows the card shows and how many recent submissions it lists. */
  datatype Sections = Sections(
    difficulty: bool, activity: bool, stats: bool, badges: bool,
    submissions: bool, beats: bool, submissionCount: nat)

  /** The top of each row and the height of the whole card. */
  datatype CardLayout = CardLayout(row1Y: int, row2Y: int, row3Y: int, row4Y: int, cardHeight: int)

  const HeaderHeight: int := 88
  const Row1Height: int := 80
  /** Extra height of row 1 when the beats percentages sit under the
      difficulty cards. */
  const BeatsExtra: int := 25
  const RowGap: int := 20
  const PanelHeight: int := 60
  const SubmissionLine: int := 20
  const SubmissionTitle: int := 35
  const MinCardHeight: int := 150

  function Max(a: int, b: int): int { if a < b then b else a }

  /** Height added by each row; a hidden row adds nothing. */
  function Row1(s: Sections): int
  {
    if s.difficulty || s.activity then (if s.difficulty && s.beats then 105 else 80) + 20 else 0
  }
  function Row2(s: Sections): int { if s.stats then 80 else 0 }
  function Row3(s: Sections): int { if s.badges then 80 else 0 }
  function Row4(s: Sections): int { if s.submissions then 20 * s.submissionCount + 55 else 0 }

  /** The card height as a closed formula over the rows shown. */
  function Height(s: Sections): int
  {
    Max(MinCardHeight, HeaderHeight + Row1(s) + Row2(s) + Row3(s) + Row4(s))
  }

  /** Stacks the rows: each shown row advances the running offset by its
      height plus the gap; the card is at least 150 high. */
  method ComputeLayout(s: Sections) returns (l: CardLayout)
    ensures l == LayoutOf(s)
  {
    var currentY := HeaderHeight;

    var showRow1 := s.difficulty || s.activity;
    var row1Y := currentY;
    if showRow1 {
      var effectiveRow1Height := if s.difficulty && s.beats then Row1Height + BeatsExtra else Row1Height;
      currentY := currentY + effectiveRow1Height + RowGap;
    }

    var row2Y := currentY;
    if s.stats {
      currentY := currentY + PanelHeight + RowGap;
    }

    var row3Y := currentY;
    if s.badges {
      currentY := currentY + PanelHeight + RowGap;
    }

    var row4Y := currentY;
    if s.submissions {
      currentY := currentY + s.submissionCount * SubmissionLine + SubmissionTitle + RowGap;
    }

    l := CardLayout(row1Y, row2Y, row3Y, row4Y, Max(MinCardHeight, currentY));
  }

  /** The layout as a closed formula: row 1 starts under the header, every
      further row starts where the previous shown rows end. */
  function LayoutOf(s: Sections): CardLayout
  {
    var r2 := HeaderHeight + Row1(s);
    var r3 := r2 + Row2(s);
    CardLayout(HeaderHeight, r2, r3, r3 + Row3(s), Height(s))
  }

  /** Rows are stacked top to bottom and all start inside the card, which
      is never shorter than 150. */
  lemma RowsOrdered(s: Sections)
    ensures var l := LayoutOf(s);
      HeaderHeight == l.row1Y <= l.row2Y <= l.row3Y <= l.row4Y <= l.cardHeight
    ensures LayoutOf(s).cardHeight >= MinCardHeight
  {
  }

  /** Each shown row ends inside the card. */
  lemma RowsFit(s: Sections)
    ensures LayoutOf(s).row4Y + Row4(s) <= LayoutOf(s).cardHeight
  {
  }

  /** With no rows at all the card keeps its minimum height. */
  lemma EmptyCard(s: Sections)
    requires !s.difficulty && !s.activity && !s.stats && !s.badges && !s.submissions
    ensures LayoutOf(s).cardHeight == MinCardHeight
    ensures LayoutOf(s).row4Y == HeaderHeight
  {
  }

  /** Showing one more row never shrinks the card, and a hidden row's
      settings (beats, submission count) do not matter. */
  lemma ShowingRowsGrows(s: Sections, t: Sections)
    requires s.difficulty ==> t.difficulty
    requires s.activity ==> t.activity
    requires s.stats ==> t.stats
    requires s.badges ==> t.badges
    requires s.submissions ==> t.submissions
    requires s.beats ==> t.beats
    requires s.submissionCount <= t.submissionCount
    ensures Height(s) <= Height(t)
  {
  }

  /** Without the submissions row, the number of submissions does not
      affect the layout. */
  lemma HiddenSubmissionsIgnored(s: Sections, n: nat)
    requires !s.submissions
    ensures LayoutOf(s.(submissionCount := n)) == LayoutOf(s)
  {
  }

  /** Each further submission adds 20 to a card that lists at least one. */
  lemma SubmissionLineHeight(s: Sections)
    requires s.submissions && s.submissionCount > 0
    ensures Height(s.(submissionCount := s.submissionCount + 1)) == Height(s) + SubmissionLine
  {
  }

  /** The card with all rows and five submissions, the largest the route
      produces. */
  lemma FullCard()
    ensures Height(Sections(true, true, true, true, true, true, 5)) == 88 + 125 + 80 + 80 + 155
  {
  }
}
