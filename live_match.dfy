/** The live-match page of the public dashboard: it polls three feeds for one
    match (ball by ball, batting figures, bowling figures) and projects them
    into a score view per innings (latest ball, batsmen, score, over and an
    over-by-over strip) and a scorecard per innings (batting and bowling rows). */
module LiveMatch {
  import opened Common
  import opened Seqs

  // ---------------------------------------------------------------- feeds

  /** One delivery of the ball-by-ball feed. `total` and `wicketNumber` are
      the running score and wicket count after this ball. */
  datatype Ball = Ball(
    ballNumber: int,
    overNumber: int,
    runsScored: Option<int>,
    wicket: bool,
    extra: Option<string>,
    batsmen1: string,
    batsmen2: string,
    bowler: string,
    total: Option<int>,
    wicketNumber: Option<int>)

  /** One innings of the ball-by-ball feed; `ballByBall` may be missing. */
  datatype Innings = Innings(ballByBall: Option<seq<Ball>>, battingTeamName: string, bowlingTeamName: string)

  /** The ball-by-ball feed: `{Innings1, Innings2}`, either key possibly missing. */
  datatype MatchData = MatchData(innings1: Option<Innings>, innings2: Option<Innings>)

  datatype BattingLine = BattingLine(
    playerName: string, runsScored: Option<int>, ballsFaced: Option<int>, fours: Option<int>, six: Option<int>)

  datatype BowlingLine = BowlingLine(
    playerName: string, overs: Option<int>, runsGiven: Option<int>, wickets: Option<int>)

  /** A score feed: `{Innings1: [...], Innings2: [...]}`, either key possibly missing. */
  datatype PerInnings<T> = PerInnings(innings1: Option<seq<T>>, innings2: Option<seq<T>>)

  datatype InningsNumber = One | Two

  /** `feed[`Innings${n}`]`. */
  function Lines<T>(feed: PerInnings<T>, n: InningsNumber): Option<seq<T>>
  {
    if n == One then feed.innings1 else feed.innings2
  }

  // ---------------------------------------------------------------- one ball

  /** What one ball shows in the over strip. */
  datatype BallMark = WicketMark | ExtraMark(code: char) | RunsMark(runs: int)

  /** A ball shows a wicket before anything else, then the first character of
      a recorded (non-empty) extra, then its runs, with absent runs read as 0. */
  function BallDisplay(b: Ball): (m: BallMark)
    ensures m.WicketMark? <==> b.wicket
    ensures m.ExtraMark? <==> !b.wicket && b.extra.Some? && b.extra.value != []
    ensures m.ExtraMark? ==> m.code == b.extra.value[0]
    ensures m.RunsMark? ==> m.runs == OrZero(b.runsScored)
  {
    if b.wicket then WicketMark
    else if b.extra.Some? && b.extra.value != [] then ExtraMark(b.extra.value[0])
    else RunsMark(OrZero(b.runsScored))
  }

  /** The "Over: o.b" line for the latest ball: a sixth ball rolls over to
      the next over with ball 0. Either way the count of balls bowled,
      6 * over + ball, is that of the feed, and ball 6 is never displayed. */
  function DisplayOver(b: Ball): (r: (int, int))
    ensures 6 * r.0 + r.1 == 6 * b.overNumber + b.ballNumber
    ensures r.1 != 6
    ensures 0 <= b.ballNumber <= 6 ==> 0 <= r.1 < 6
    ensures b.ballNumber != 6 ==> r.1 == b.ballNumber
  {
    if b.ballNumber == 6 then (b.overNumber + 1, 0) else (b.overNumber, b.ballNumber)
  }

  // ---------------------------------------------------------------- over strip

  /** t is strictly decreasing, so it lists every value once. */
  predicate StrictlyDescending(t: seq<int>)
  {
    forall i, j :: 0 <= i < j < |t| ==> t[i] > t[j]
  }

  /** The head of a strictly descending list is above everything after it. */
  lemma HeadAboveTail(t: seq<int>)
    requires StrictlyDescending(t) && t != []
    ensures forall y :: y in t[1..] ==> y < t[0]
  {
    forall y | y in t[1..]
      ensures y < t[0]
    {
      var k :| 0 <= k < |t[1..]| && t[1..][k] == y;
      assert t[k + 1] == y;
    }
  }

  /** A value above every element of a strictly descending list may head it. */
  lemma ConsDescending(h: int, r: seq<int>)
    requires StrictlyDescending(r) && forall y :: y in r ==> y < h
    ensures StrictlyDescending([h] + r)
  {
    var s := [h] + r;
    forall i, j | 0 <= i < j < |s|
      ensures s[i] > s[j]
    {
      assert s[j] == r[j - 1];
      assert r[j - 1] in r;
      if i > 0 {
        assert s[i] == r[i - 1];
      }
    }
  }

  /** Adds x to a strictly descending list unless it is already there. */
  function InsertDescending(t: seq<int>, x: int): (r: seq<int>)
    requires StrictlyDescending(t)
    ensures StrictlyDescending(r)
    ensures forall y :: y in r <==> y in t || y == x
  {
    if t == [] then [x]
    else if x == t[0] then t
    else if x > t[0] then
      HeadAboveTail(t);
      assert t == [t[0]] + t[1..];
      ConsDescending(x, t);
      [x] + t
    else
      HeadAboveTail(t);
      var rest := InsertDescending(t[1..], x);
      assert t == [t[0]] + t[1..];
      ConsDescending(t[0], rest);
      [t[0]] + rest
  }

  /** The over numbers that occur in the feed. */
  function OverNumbers(balls: seq<Ball>): set<int>
  {
    set b | b in balls :: b.overNumber
  }

  /** `Array.from(new Set(balls.map(b => b.overNumber))).sort((a, b) => b - a)`:
      every over number of the feed, once each, most recent first. */
  function DistinctOversDescending(balls: seq<Ball>): (r: seq<int>)
    ensures StrictlyDescending(r)
    ensures forall o :: o in r <==> o in OverNumbers(balls)
  {
    if balls == [] then []
    else
      var rest := DistinctOversDescending(balls[1..]);
      assert forall b :: b in balls <==> b == balls[0] || b in balls[1..];
      InsertDescending(rest, balls[0].overNumber)
  }

  /** Two strictly descending lists with the same elements are the same list. */
  lemma {:induction false} DescendingUnique(a: seq<int>, b: seq<int>)
    requires StrictlyDescending(a) && StrictlyDescending(b)
    requires forall x :: x in a <==> x in b
    ensures a == b
  {
    assert a != [] ==> a[0] in a && a[0] in b;
    assert b != [] ==> b[0] in b && b[0] in a;
    if a != [] {
      assert forall x :: x in a[1..] <==> x in a && x != a[0];
      assert forall x :: x in b[1..] <==> x in b && x != b[0];
      DescendingUnique(a[1..], b[1..]);
      assert a == [a[0]] + a[1..];
      assert b == [b[0]] + b[1..];
    }
  }

  /** The strip shows the ball slots of an over in this order; 5 is not among them. */
  const SlotOrder: seq<int> := [6, 4, 3, 2, 1]

  datatype Slot = Dash | Shown(mark: BallMark)

  datatype OverColumn = OverColumn(heading: int, slots: seq<Slot>)

  /** `b => b.overNumber === over`. */
  function InOver(over: int): Ball -> bool
  {
    (b: Ball) => b.overNumber == over
  }

  /** `b => b.ballNumber === n`. */
  function Numbered(n: int): Ball -> bool
  {
    (b: Ball) => b.ballNumber == n
  }

  /** `balls.filter(b => b.overNumber === over)`. */
  function BallsOfOver(balls: seq<Ball>, over: int): (r: seq<Ball>)
    ensures forall b :: b in r <==> b in balls && b.overNumber == over
    ensures IsSubsequence(r, balls)
    ensures forall b :: multiset(r)[b] == if b.overNumber == over then multiset(balls)[b] else 0
  {
    Filter(balls, InOver(over))
  }

  /** The slot for ball number n shows the first ball of the over with that
      number, and a dash when there is none. */
  function SlotFor(overBalls: seq<Ball>, n: int): (r: Slot)
    ensures r.Dash? <==> forall i :: 0 <= i < |overBalls| ==> overBalls[i].ballNumber != n
    ensures r.Shown? ==> exists i :: (0 <= i < |overBalls| && overBalls[i].ballNumber == n
              && r.mark == BallDisplay(overBalls[i]) && forall j :: 0 <= j < i ==> overBalls[j].ballNumber != n)
  {
    match FindFirst(overBalls, Numbered(n))
    case None => Dash
    case Some(i) => Shown(BallDisplay(overBalls[i]))
  }

  /** The five slots of one over, in SlotOrder. */
  function ColumnSlots(overBalls: seq<Ball>): (r: seq<Slot>)
    ensures |r| == 5
    ensures forall k :: 0 <= k < |r| ==>
              (r[k].Dash? <==> forall i :: 0 <= i < |overBalls| ==> overBalls[i].ballNumber != SlotOrder[k])
  {
    seq(|SlotOrder|, k requires 0 <= k < |SlotOrder| => SlotFor(overBalls, SlotOrder[k]))
  }

  /** One column per distinct over, most recent first, headed over + 1. */
  function OverStrip(balls: seq<Ball>): (r: seq<OverColumn>)
    ensures |r| == |DistinctOversDescending(balls)|
    ensures forall i :: 0 <= i < |r| ==>
              r[i].heading == DistinctOversDescending(balls)[i] + 1 && |r[i].slots| == 5
    ensures forall i :: 0 <= i < |r| ==>
              r[i].slots == ColumnSlots(BallsOfOver(balls, DistinctOversDescending(balls)[i]))
  {
    var overs := DistinctOversDescending(balls);
    seq(|overs|, i requires 0 <= i < |overs| => OverColumn(overs[i] + 1, ColumnSlots(BallsOfOver(balls, overs[i]))))
  }

  /** The strip has one column for each over of the feed and no other, with
      labels strictly decreasing, and every column has exactly five slots. */
  lemma StripColumns(balls: seq<Ball>)
    ensures forall i, j :: 0 <= i < j < |OverStrip(balls)| ==> OverStrip(balls)[i].heading > OverStrip(balls)[j].heading
    ensures forall o :: o in OverNumbers(balls) <==> exists i :: 0 <= i < |OverStrip(balls)| && OverStrip(balls)[i].heading == o + 1
    ensures forall i :: 0 <= i < |OverStrip(balls)| ==> |OverStrip(balls)[i].slots| == 5
  {
    var overs := DistinctOversDescending(balls);
    forall o | o in OverNumbers(balls)
      ensures exists i :: 0 <= i < |OverStrip(balls)| && OverStrip(balls)[i].heading == o + 1
    {
      var i :| 0 <= i < |overs| && overs[i] == o;
      assert OverStrip(balls)[i].heading == o + 1;
    }
  }

  /** A slot shows the first ball found with its number: balls after it with
      the same number are hidden. */
  lemma {:induction false} FirstBallWins(pre: seq<Ball>, b: Ball, post: seq<Ball>, k: nat)
    requires k < |SlotOrder| && b.ballNumber == SlotOrder[k]
    requires forall x :: x in pre ==> x.ballNumber != SlotOrder[k]
    ensures ColumnSlots(pre + [b] + post)[k] == Shown(BallDisplay(b))
  {
    var s := pre + [b] + post;
    var slot := SlotFor(s, SlotOrder[k]);
    assert s[|pre|] == b;
    if slot.Shown? {
      var i :| 0 <= i < |s| && s[i].ballNumber == SlotOrder[k]
        && slot.mark == BallDisplay(s[i]) && forall j :: 0 <= j < i ==> s[j].ballNumber != SlotOrder[k];
      assert i == |pre|;
    }
  }

  /** A ball whose number is not one of the five slots (a ball 5) never
      changes its over's column. */
  lemma {:induction false} BallOutsideSlotsInvisible(overBalls: seq<Ball>, b: Ball)
    requires b.ballNumber !in SlotOrder
    ensures ColumnSlots(overBalls + [b]) == ColumnSlots(overBalls)
  {
    forall k | 0 <= k < |SlotOrder|
      ensures SlotFor(overBalls + [b], SlotOrder[k]) == SlotFor(overBalls, SlotOrder[k])
    {
      FindFirstAppend(overBalls, b, Numbered(SlotOrder[k]));
    }
  }

  /** Appending a ball adds its over number to the overs of the feed. */
  lemma OverNumbersAppend(balls: seq<Ball>, b: Ball)
    ensures OverNumbers(balls + [b]) == OverNumbers(balls) + {b.overNumber}
  {
    assert forall x :: x in balls + [b] <==> x in balls || x == b;
  }

  /** Appending a ball numbered 5 leaves the column of every over as it was. */
  lemma {:induction false} FifthBallKeepsColumn(balls: seq<Ball>, b: Ball, o: int)
    requires b.ballNumber == 5
    ensures ColumnSlots(BallsOfOver(balls + [b], o)) == ColumnSlots(BallsOfOver(balls, o))
  {
    var kept := BallsOfOver(balls, o);
    FilterAppend(balls, b, InOver(o));
    if b.overNumber == o {
      assert BallsOfOver(balls + [b], o) == kept + [b];
      BallOutsideSlotsInvisible(kept, b);
    } else {
      assert BallsOfOver(balls + [b], o) == kept;
    }
  }

  /** A fifth ball of an over already on the strip leaves the whole strip as it was. */
  lemma {:induction false} FifthBallNeverShown(balls: seq<Ball>, b: Ball)
    requires b.ballNumber == 5 && b.overNumber in OverNumbers(balls)
    ensures OverStrip(balls + [b]) == OverStrip(balls)
  {
    OverNumbersAppend(balls, b);
    DescendingUnique(DistinctOversDescending(balls + [b]), DistinctOversDescending(balls));
    var s1, s2 := OverStrip(balls + [b]), OverStrip(balls);
    forall i | 0 <= i < |s2|
      ensures s1[i] == s2[i]
    {
      FifthBallKeepsStripColumn(balls, b, i);
    }
  }

  /** Column i of the strip is unchanged by a fifth ball that adds no over. */
  lemma FifthBallKeepsStripColumn(balls: seq<Ball>, b: Ball, i: nat)
    requires b.ballNumber == 5
    requires DistinctOversDescending(balls + [b]) == DistinctOversDescending(balls)
    requires i < |DistinctOversDescending(balls)|
    ensures i < |OverStrip(balls + [b])| && OverStrip(balls + [b])[i] == OverStrip(balls)[i]
  {
    var o := DistinctOversDescending(balls)[i];
    FifthBallKeepsColumn(balls, b, o);
  }

  // ---------------------------------------------------------------- score view

  /** A batsman's line in the score view. */
  datatype BatsmanFigure = BatsmanFigure(name: string, runs: int, balls: int)

  /** `b => b.playerName === name`. */
  function NamedPlayer(name: string): BattingLine -> bool
  {
    (l: BattingLine) => l.playerName == name
  }

  /** `lines?.find(b => b.playerName === name) || {}`, read with `|| 0`: the
      first entry of that name, or zeros when the list or the entry is missing. */
  function BatsmanFigures(lines: Option<seq<BattingLine>>, name: string): (f: BatsmanFigure)
    ensures f.name == name
    ensures lines.None? ==> f.runs == 0 && f.balls == 0
    ensures lines.Some? && (forall l :: l in lines.value ==> l.playerName != name) ==> f.runs == 0 && f.balls == 0
    ensures lines.Some? ==> forall i :: (0 <= i < |lines.value| && lines.value[i].playerName == name
              && (forall j :: 0 <= j < i ==> lines.value[j].playerName != name)
              ==> f.runs == OrZero(lines.value[i].runsScored) && f.balls == OrZero(lines.value[i].ballsFaced))
  {
    if lines.None? then BatsmanFigure(name, 0, 0)
    else
      match FindFirst(lines.value, NamedPlayer(name))
      case None => BatsmanFigure(name, 0, 0)
      case Some(i) => BatsmanFigure(name, OrZero(lines.value[i].runsScored), OrZero(lines.value[i].ballsFaced))
  }

  datatype ScoreSummary = ScoreSummary(
    battingTeam: string,
    striker: BatsmanFigure,
    nonStriker: BatsmanFigure,
    total: int,
    wickets: int,
    over: int,
    ballInOver: int,
    bowler: string,
    strip: seq<OverColumn>)

  /** `renderScoreView(innings)`: nothing for a missing innings or one without
      balls; otherwise the latest ball's batsmen, score, over and bowler and
      the strip of all balls. `lines` is the batting feed of that innings. */
  function ScoreView(innings: Option<Innings>, lines: Option<seq<BattingLine>>): (r: Option<ScoreSummary>)
    ensures r.None? <==> innings.None? || innings.value.ballByBall.None? || innings.value.ballByBall.value == []
    ensures r.Some? ==>
      var balls := innings.value.ballByBall.value;
      var latest := balls[|balls| - 1];
      && r.value.battingTeam == innings.value.battingTeamName
      && r.value.striker == BatsmanFigures(lines, latest.batsmen1)
      && r.value.nonStriker == BatsmanFigures(lines, latest.batsmen2)
      && r.value.total == OrZero(latest.total) && r.value.wickets == OrZero(latest.wicketNumber)
      && (r.value.over, r.value.ballInOver) == DisplayOver(latest)
      && r.value.bowler == latest.bowler
      && r.value.strip == OverStrip(balls)
  {
    if innings.None? || innings.value.ballByBall.None? || innings.value.ballByBall.value == [] then None
    else
      var balls := innings.value.ballByBall.value;
      var latest := balls[|balls| - 1];
      var (over, ball) := DisplayOver(latest);
      Some(ScoreSummary(
        innings.value.battingTeamName,
        BatsmanFigures(lines, latest.batsmen1),
        BatsmanFigures(lines, latest.batsmen2),
        OrZero(latest.total), OrZero(latest.wicketNumber),
        over, ball, latest.bowler, OverStrip(balls)))
  }

  // ---------------------------------------------------------------- scorecard

  datatype BattingRow = BattingRow(name: string, runs: int, balls: int, fours: int, sixes: int, strikeRate: real)

  datatype BowlingRow = BowlingRow(name: string, overs: int, runsGiven: int, wickets: int, economy: real)

  /** One batting row: balls faced default to 1 when absent or 0 (and the
      default is what the row shows), and the strike rate is runs per 100 balls. */
  function BattingRowOf(l: BattingLine): (row: BattingRow)
    ensures row.name == l.playerName && row.runs == OrZero(l.runsScored)
    ensures row.fours == OrZero(l.fours) && row.sixes == OrZero(l.six)
    ensures l.ballsFaced.None? || l.ballsFaced.value == 0 ==> row.balls == 1
    ensures l.ballsFaced.Some? && l.ballsFaced.value != 0 ==> row.balls == l.ballsFaced.value
    ensures row.strikeRate * row.balls as real == row.runs as real * 100.0
  {
    var runs := OrZero(l.runsScored);
    var balls := OrOne(l.ballsFaced);
    BattingRow(l.playerName, runs, balls, OrZero(l.fours), OrZero(l.six), (runs as real / balls as real) * 100.0)
  }

  /** One bowling row: overs default to 1 when absent or 0, and the economy
      is runs given per over. */
  function BowlingRowOf(l: BowlingLine): (row: BowlingRow)
    ensures row.name == l.playerName && row.runsGiven == OrZero(l.runsGiven) && row.wickets == OrZero(l.wickets)
    ensures l.overs.None? || l.overs.value == 0 ==> row.overs == 1
    ensures l.overs.Some? && l.overs.value != 0 ==> row.overs == l.overs.value
    ensures row.economy * row.overs as real == row.runsGiven as real
  {
    var overs := OrOne(l.overs);
    var given := OrZero(l.runsGiven);
    BowlingRow(l.playerName, overs, given, OrZero(l.wickets), given as real / overs as real)
  }

  /** `(feed || []).map(...)`: one row per entry, in order; none when the innings is missing. */
  function BattingRows(lines: Option<seq<BattingLine>>): (rows: seq<BattingRow>)
    ensures lines.None? ==> rows == []
    ensures lines.Some? ==> |rows| == |lines.value|
    ensures lines.Some? ==> forall i :: 0 <= i < |rows| ==> rows[i] == BattingRowOf(lines.value[i])
  {
    if lines.None? then []
    else seq(|lines.value|, i requires 0 <= i < |lines.value| => BattingRowOf(lines.value[i]))
  }

  function BowlingRows(lines: Option<seq<BowlingLine>>): (rows: seq<BowlingRow>)
    ensures lines.None? ==> rows == []
    ensures lines.Some? ==> |rows| == |lines.value|
    ensures lines.Some? ==> forall i :: 0 <= i < |rows| ==> rows[i] == BowlingRowOf(lines.value[i])
  {
    if lines.None? then []
    else seq(|lines.value|, i requires 0 <= i < |lines.value| => BowlingRowOf(lines.value[i]))
  }

  /** No row ever divides by zero: every batting row has a non-zero ball
      count and every bowling row a non-zero over count. */
  lemma ScorecardDenominators(batting: Option<seq<BattingLine>>, bowling: Option<seq<BowlingLine>>)
    ensures forall row :: row in BattingRows(batting) ==> row.balls != 0
    ensures forall row :: row in BowlingRows(bowling) ==> row.overs != 0
  {
  }

  // ---------------------------------------------------------------- polling

  /** What the page holds from the three feeds. */
  datatype Feeds = Feeds(matchData: MatchData, batting: PerInnings<BattingLine>, bowling: PerInnings<BowlingLine>)

  /** The state the page starts with: two innings without balls, no score feeds. */
  const InitialFeeds := Feeds(
    MatchData(Some(Innings(Some([]), "", "")), Some(Innings(Some([]), "", ""))),
    PerInnings(None, None), PerInnings(None, None))

  /** One run of `fetchData`, with None for a fetch that threw. The ball
      feed is stored as soon as it arrives; the batting feed is fetched only
      after that and the bowling feed after it, and the two are stored
      together once both have arrived. */
  function AfterPoll(s: Feeds, ballFeed: Option<MatchData>, battingFeed: Option<PerInnings<BattingLine>>,
                     bowlingFeed: Option<PerInnings<BowlingLine>>): Feeds
  {
    if ballFeed.None? then s
    else if battingFeed.None? || bowlingFeed.None? then s.(matchData := ballFeed.value)
    else Feeds(ballFeed.value, battingFeed.value, bowlingFeed.value)
  }

  /** Polling twice with the same replies leaves what polling once left: no
      ball or line is accumulated or duplicated. */
  lemma PollIdempotent(s: Feeds, ballFeed: Option<MatchData>, battingFeed: Option<PerInnings<BattingLine>>,
                       bowlingFeed: Option<PerInnings<BowlingLine>>)
    ensures AfterPoll(AfterPoll(s, ballFeed, battingFeed, bowlingFeed), ballFeed, battingFeed, bowlingFeed)
         == AfterPoll(s, ballFeed, battingFeed, bowlingFeed)
  {
  }

  /** A failed ball fetch keeps the previous state; a successful one always
      replaces the ball feed, and the score feeds change only when all three
      fetches succeeded, to exactly what they returned. */
  lemma PollOutcomes(s: Feeds, ballFeed: Option<MatchData>, battingFeed: Option<PerInnings<BattingLine>>,
                     bowlingFeed: Option<PerInnings<BowlingLine>>)
    ensures ballFeed.None? ==> AfterPoll(s, ballFeed, battingFeed, bowlingFeed) == s
    ensures ballFeed.Some? ==> AfterPoll(s, ballFeed, battingFeed, bowlingFeed).matchData == ballFeed.value
    ensures AfterPoll(s, ballFeed, battingFeed, bowlingFeed).batting != s.batting ==>
              (ballFeed.Some? && battingFeed.Some? && bowlingFeed.Some?
               && AfterPoll(s, ballFeed, battingFeed, bowlingFeed).batting == battingFeed.value
               && AfterPoll(s, ballFeed, battingFeed, bowlingFeed).bowling == bowlingFeed.value)
    ensures ballFeed.Some? && battingFeed.Some? && bowlingFeed.Some? ==>
              AfterPoll(s, ballFeed, battingFeed, bowlingFeed) == Feeds(ballFeed.value, battingFeed.value, bowlingFeed.value)
    ensures AfterPoll(s, ballFeed, battingFeed, bowlingFeed).bowling != s.bowling ==>
              (ballFeed.Some? && battingFeed.Some? && bowlingFeed.Some?
               && AfterPoll(s, ballFeed, battingFeed, bowlingFeed).batting == battingFeed.value
               && AfterPoll(s, ballFeed, battingFeed, bowlingFeed).bowling == bowlingFeed.value)
  {
  }

  /** The page component: the three feeds and the two tab indices. */
  class LiveMatchPage {
    var matchData: MatchData
    var battingScore: PerInnings<BattingLine>
    var bowlingScore: PerInnings<BowlingLine>
    var mainTab: int
    var scorecardTab: int

    function Held(): Feeds
      reads this
    {
      Feeds(matchData, battingScore, bowlingScore)
    }

    constructor ()
      ensures Held() == InitialFeeds
      ensures mainTab == 0 && scorecardTab == 0
    {
      matchData := InitialFeeds.matchData;
      battingScore := PerInnings(None, None);
      bowlingScore := PerInnings(None, None);
      mainTab := 0;
      scorecardTab := 0;
    }

    /** `fetchData`, one poll: each reply is None when its fetch threw. */
    method Poll(ballFeed: Option<MatchData>, battingFeed: Option<PerInnings<BattingLine>>,
                bowlingFeed: Option<PerInnings<BowlingLine>>)
      modifies this
      ensures Held() == AfterPoll(old(Held()), ballFeed, battingFeed, bowlingFeed)
      ensures mainTab == old(mainTab) && scorecardTab == old(scorecardTab)
    {
      if ballFeed.None? {
        return;
      }
      matchData := ballFeed.value;
      if battingFeed.None? || bowlingFeed.None? {
        return;
      }
      battingScore := battingFeed.value;
      bowlingScore := bowlingFeed.value;
    }

    method ChangeMainTab(newValue: int)
      modifies this
      ensures mainTab == newValue
      ensures Held() == old(Held()) && scorecardTab == old(scorecardTab)
    {
      mainTab := newValue;
    }

    method ChangeScorecardTab(newValue: int)
      modifies this
      ensures scorecardTab == newValue
      ensures Held() == old(Held()) && mainTab == old(mainTab)
    {
      scorecardTab := newValue;
    }

    /** The Score tab: a score view for each innings, each read against its own batting feed. */
    function ScoreTab(): (r: (Option<ScoreSummary>, Option<ScoreSummary>))
      reads this
      ensures r.0.None? <==> matchData.innings1.None? || matchData.innings1.value.ballByBall.None?
                             || matchData.innings1.value.ballByBall.value == []
      ensures r.1.None? <==> matchData.innings2.None? || matchData.innings2.value.ballByBall.None?
                             || matchData.innings2.value.ballByBall.value == []
      ensures r.0.Some? ==> r.0.value.strip == OverStrip(matchData.innings1.value.ballByBall.value)
      ensures r.1.Some? ==> r.1.value.strip == OverStrip(matchData.innings2.value.ballByBall.value)
      ensures r.0.Some? ==> var balls := matchData.innings1.value.ballByBall.value;
                r.0.value.striker == BatsmanFigures(battingScore.innings1, balls[|balls| - 1].batsmen1)
      ensures r.1.Some? ==> var balls := matchData.innings2.value.ballByBall.value;
                r.1.value.striker == BatsmanFigures(battingScore.innings2, balls[|balls| - 1].batsmen1)
      ensures r == (ScoreView(matchData.innings1, battingScore.innings1), ScoreView(matchData.innings2, battingScore.innings2))
    {
      (ScoreView(matchData.innings1, battingScore.innings1), ScoreView(matchData.innings2, battingScore.innings2))
    }

    /** The Scorecard tab for innings n. */
    function Scorecard(n: InningsNumber): (r: (seq<BattingRow>, seq<BowlingRow>))
      reads this
      ensures |r.0| == if Lines(battingScore, n).Some? then |Lines(battingScore, n).value| else 0
      ensures |r.1| == if Lines(bowlingScore, n).Some? then |Lines(bowlingScore, n).value| else 0
      ensures forall row :: row in r.0 ==> row.balls != 0
      ensures forall row :: row in r.1 ==> row.overs != 0
      ensures r == (BattingRows(Lines(battingScore, n)), BowlingRows(Lines(bowlingScore, n)))
    {
      (BattingRows(Lines(battingScore, n)), BowlingRows(Lines(bowlingScore, n)))
    }
  }

  // ---------------------------------------------------------------- scenarios

  /** The documented scenario: one ball of 1 run by "Player 1" off "Bowler 1",
      with a total of 1 and no wicket, shows "Player 1* 1 (1)",
      "Player 2 0 (0)", "Score: 1/0", "Over: 0.1" and a strip of one over
      whose ball-1 slot shows 1. */
  lemma OneBallScenario(p1: string, p2: string, bowler: string)
    requires p1 == "Player 1" && p2 == "Player 2"
    ensures
      var ball := Ball(1, 0, Some(1), false, None, p1, p2, bowler, Some(1), Some(0));
      var lines := Some([BattingLine(p1, Some(1), Some(1), Some(0), Some(0))]);
      ScoreView(Some(Innings(Some([ball]), "Team A", "Team B")), lines)
        == Some(ScoreSummary("Team A", BatsmanFigure(p1, 1, 1), BatsmanFigure(p2, 0, 0), 1, 0, 0, 1, bowler,
                             [OverColumn(1, [Dash, Dash, Dash, Dash, Shown(RunsMark(1))])]))
  {
    var ball := Ball(1, 0, Some(1), false, None, p1, p2, bowler, Some(1), Some(0));
    var lines := [BattingLine(p1, Some(1), Some(1), Some(0), Some(0))];
    assert p1 != p2 by {
      assert p1[7] != p2[7];
    }
    assert [ball][1..] == [];
    assert DistinctOversDescending([ball]) == [0];
    assert BallsOfOver([ball], 0) == [ball];
    assert FindFirst(lines, NamedPlayer(p1)) == Some(0);
    assert BatsmanFigures(Some(lines), p1) == BatsmanFigure(p1, 1, 1);
    assert BatsmanFigures(Some(lines), p2) == BatsmanFigure(p2, 0, 0);
    assert DisplayOver(ball) == (0, 1);
    assert OverStrip([ball]) == [OverColumn(1, ColumnSlots([ball]))];
    assert ColumnSlots([ball]) == [Dash, Dash, Dash, Dash, Shown(RunsMark(1))] by {
      assert SlotFor([ball], 6) == Dash;
      assert SlotFor([ball], 4) == Dash;
      assert SlotFor([ball], 3) == Dash;
      assert SlotFor([ball], 2) == Dash;
      assert SlotFor([ball], 1) == Shown(RunsMark(1));
    }
  }

  /** Balls in overs 0, 1 and 2 give the strip order 3, 2, 1 (overs 2, 1, 0). */
  lemma StripOrderScenario(b0: Ball, b1: Ball, b2: Ball)
    requires b0.overNumber == 0 && b1.overNumber == 1 && b2.overNumber == 2
    ensures DistinctOversDescending([b0, b1, b2]) == [2, 1, 0]
  {
    assert [b0, b1, b2][1..] == [b1, b2];
    assert [b1, b2][1..] == [b2];
    assert [b2][1..] == [];
    assert DistinctOversDescending([b2]) == [2];
    assert [2][1..] == [] && [2, 1][1..] == [1] && [1][1..] == [];
    assert InsertDescending([2], 1) == [2, 1];
    assert DistinctOversDescending([b1, b2]) == [2, 1];
    assert InsertDescending([1], 0) == [1, 0];
    assert InsertDescending([2, 1], 0) == [2, 1, 0];
  }
}
