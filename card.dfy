/** The stats card as structured values: what each part shows and where,
    in place of the SVG text the route writes out. */
module Card {
  import opened Optional
  import opened CardData
  import Heatmap
  import Layout

  /** The seven visibility toggles of the card. */
  datatype Options = Options(
    difficulty: bool, activity: bool, stats: bool, badges: bool,
    submissions: bool, beats: bool, rank: bool)

  /** Cells of the skills and badges rows sit side by side 152 apart;
      lines of the submissions row sit 24 apart. */
  const CellPitch: int := 152
  const LinePitch: int := 24
  const ActivityBesideDifficulty: int := 380
  const FooterInset: int := 10

  datatype TagCell = TagCell(x: int, text: string, solved: int)
  datatype BadgeCell = BadgeCell(x: int, text: string)
  datatype SubmissionLine = SubmissionLine(y: int, title: string)

  /** Row 1, left: the solved/total counts, with the beats line under them
      when `beats` is set. */
  datatype DifficultyPanel = DifficultyPanel(beats: bool)
  /** Row 1, right: streak, active days and the heatmap, at offset `x`. */
  datatype ActivityPanel = ActivityPanel(x: int, heatmap: seq<Heatmap.Square>)

  datatype Card = Card(
    stats: Stats,
    layout: Layout.CardLayout,
    subtitle: Option<string>,
    ranking: Option<int>,
    difficulty: Option<DifficultyPanel>,
    activity: Option<ActivityPanel>,
    skills: Option<seq<TagCell>>,
    badges: Option<seq<BadgeCell>>,
    submissions: Option<seq<SubmissionLine>>,
    footerY: int)

  function SectionsOf(o: Options, submissionCount: nat): Layout.Sections
  {
    Layout.Sections(o.difficulty, o.activity, o.stats, o.badges, o.submissions, o.beats, submissionCount)
  }

  function TagCells(tags: seq<Tag>): (cells: seq<TagCell>)
    ensures |cells| == |tags|
    ensures forall i :: 0 <= i < |tags| ==>
      cells[i] == TagCell(CellPitch * i, TagLabel(tags[i].tagName), tags[i].problemsSolved)
  {
    seq(|tags|, i requires 0 <= i < |tags| => TagCell(CellPitch * i, TagLabel(tags[i].tagName), tags[i].problemsSolved))
  }

  function BadgeCells(badges: seq<DccBadge>): (cells: seq<BadgeCell>)
    ensures |cells| == |badges|
    ensures forall i :: 0 <= i < |badges| ==> cells[i] == BadgeCell(CellPitch * i, BadgeLabel(badges[i].badge.name))
  {
    seq(|badges|, i requires 0 <= i < |badges| => BadgeCell(CellPitch * i, BadgeLabel(badges[i].badge.name)))
  }

  function SubmissionLines(subs: seq<Submission>): (lines: seq<SubmissionLine>)
    ensures |lines| == |subs|
    ensures forall i :: 0 <= i < |subs| ==> lines[i] == SubmissionLine(LinePitch * i, subs[i].title)
  {
    seq(|subs|, i requires 0 <= i < |subs| => SubmissionLine(LinePitch * i, subs[i].title))
  }

  /** The real name is shown under the user name when it is set and
      differs from it. */
  function Subtitle(realName: string, username: string): (r: Option<string>)
    ensures r.Some? <==> realName != "" && realName != username
    ensures r.Some? ==> r.value == realName
  {
    if realName != "" && realName != username then Some(realName) else None
  }

  /** Everything the card for `username` shows, given the fetched data, the
      toggles and the calendar keys of the last 84 days. */
  ghost predicate CardFor(card: Card, username: string, data: Fetched, o: Options,
                          keys: nat -> Heatmap.DayKey)
  {
    var st := ExtractStats(data);
    && card.stats == st
    && card.layout == Layout.LayoutOf(SectionsOf(o, |st.recentSubs|))
    && card.subtitle == Subtitle(st.realName, username)
    && card.ranking == (if o.rank && st.ranking > 0 then Some(st.ranking) else None)
    && card.difficulty == (if o.difficulty then Some(DifficultyPanel(o.beats)) else None)
    && (card.activity.Some? <==> o.activity)
    && (card.activity.Some? ==>
          && card.activity.value.x == (if o.difficulty then ActivityBesideDifficulty else 0)
          && |card.activity.value.heatmap| == Heatmap.Cells
          && forall i :: 0 <= i < Heatmap.Cells ==>
               card.activity.value.heatmap[i] == Heatmap.SquareAt(st.calendar, 0, 0, keys, i))
    && card.skills == (if o.stats then Some(TagCells(st.topTags)) else None)
    && card.badges == (if o.badges then Some(BadgeCells(st.recentBadges)) else None)
    && card.submissions == (if o.submissions then Some(SubmissionLines(st.recentSubs)) else None)
    && card.footerY == card.layout.cardHeight - FooterInset
  }

  /** Builds the card: extracts the statistics, lays out the rows and draws
      the heatmap when the activity panel is shown. */
  method GenerateCard(username: string, data: Fetched, o: Options, keys: nat -> Heatmap.DayKey)
    returns (card: Card)
    ensures CardFor(card, username, data, o, keys)
  {
    var st := ExtractStats(data);
    var layout := Layout.ComputeLayout(SectionsOf(o, |st.recentSubs|));
    var activity := None;
    if o.activity {
      var squares := Heatmap.GenerateHeatmap(st.calendar, 0, 0, keys);
      activity := Some(ActivityPanel(if o.difficulty then ActivityBesideDifficulty else 0, squares));
    }
    card := Card(
      st, layout,
      Subtitle(st.realName, username),
      if o.rank && st.ranking > 0 then Some(st.ranking) else None,
      if o.difficulty then Some(DifficultyPanel(o.beats)) else None,
      activity,
      if o.stats then Some(TagCells(st.topTags)) else None,
      if o.badges then Some(BadgeCells(st.recentBadges)) else None,
      if o.submissions then Some(SubmissionLines(st.recentSubs)) else None,
      layout.cardHeight - FooterInset);
  }

  /** Every card is between 150 and 528 high: at most five submissions are
      listed. */
  lemma CardHeightBounds(card: Card, username: string, data: Fetched, o: Options,
                          keys: nat -> Heatmap.DayKey)
    requires CardFor(card, username, data, o, keys)
    ensures Layout.MinCardHeight <= card.layout.cardHeight <= 528
    ensures card.footerY >= Layout.MinCardHeight - FooterInset
  {
  }

  /** The number of cells in each list row never exceeds five. */
  lemma RowsHoldAtMostFive(card: Card, username: string, data: Fetched, o: Options,
                           keys: nat -> Heatmap.DayKey)
    requires CardFor(card, username, data, o, keys)
    ensures card.skills.Some? ==> |card.skills.value| <= TopCount
    ensures card.badges.Some? ==> |card.badges.value| <= TopCount
    ensures card.submissions.Some? ==> |card.submissions.value| <= TopCount
  {
  }
}
