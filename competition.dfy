/**
 * competition.py: the hooks of CompetitionRound that fold game events into
 * the statistics table, and CompetitionRunner's game loop.
 *
 * Game (game.py) is not part of this model: a round arrives with its seated
 * bots (roles assigned) and its outcome as Game.run leaves them.
 */
module Competition {
  import opened Wrappers
  import opened Lists
  import opened Util
  import opened CompetitionTable

  /** A bot seated in one game: its class name, its seat and its secret role. */
  datatype Bot = Bot(name: string, index: nat, spy: bool)

  /** `[t for t in team if t.spy]` */
  function SpiesIn(team: seq<Bot>): (r: seq<Bot>)
    ensures forall b :: b in r <==> b in team && b.spy
  {
    if team == [] then []
    else
      var init, b := team[..|team| - 1], team[|team| - 1];
      assert team == init + [b];
      SpiesIn(init) + (if b.spy then [b] else [])
  }

  /** The team has no spy on it (`not spies`). */
  predicate SpyFree(team: seq<Bot>) {
    forall b :: b in team ==> !b.spy
  }

  /** The names of the given bots. */
  function BotNames(bots: seq<Bot>): (r: set<string>) {
    set b | b in bots :: b.name
  }

  /** How many of bots are named n and have the given role. */
  function Occurrences(bots: seq<Bot>, n: string, spy: bool): (r: nat) {
    if bots == [] then 0
    else
      var b := bots[|bots| - 1];
      Occurrences(bots[..|bots| - 1], n, spy) + (if b.name == n && b.spy == spy then 1 else 0)
  }

  /** How many of bots are named n, in either role. */
  function Seats(bots: seq<Bot>, n: string): (r: nat) {
    if bots == [] then 0
    else Seats(bots[..|bots| - 1], n) + (if bots[|bots| - 1].name == n then 1 else 0)
  }

  /** How many of bots are spies named n that are also on team. */
  function SelectedOccurrences(bots: seq<Bot>, n: string, team: seq<Bot>): (r: nat) {
    if bots == [] then 0
    else
      var b := bots[|bots| - 1];
      SelectedOccurrences(bots[..|bots| - 1], n, team) + (if b.name == n && b.spy && b in team then 1 else 0)
  }

  // ---------------------------------------------------------------------
  // The updates each hook makes, as events on the table
  // ---------------------------------------------------------------------

  /** onPlayerVoted, the voter's own sample: support expected for a spy-free team, a down vote otherwise. */
  function VoterObs(player: Bot, vote: bool, team: seq<Bot>): (r: Obs) {
    if SpiesIn(team) == [] then Sampled(player.name, VotesRes, Int(vote))
    else Sampled(player.name, VotesSpy, Int(!vote))
  }

  /** onPlayerVoted, the loop over the spies on the team. */
  function SpyVotedObs(spies: seq<Bot>, vote: bool): (r: seq<Obs>) {
    seq(|spies|, i requires 0 <= i < |spies| => Sampled(spies[i].name, SpyVoted, Int(vote)))
  }

  /** onPlayerVoted: nothing for a spy voter. */
  function VoteObs(player: Bot, vote: bool, team: seq<Bot>): (r: seq<Obs>) {
    if player.spy then [] else [VoterObs(player, vote, team)] + SpyVotedObs(SpiesIn(team), vote)
  }

  /** onPlayerSelected, one bot of the game: every bot gets an entry, a spy also a spySelected sample. */
  function SelectionObs(b: Bot, team: seq<Bot>): (r: Obs) {
    if b.spy then Sampled(b.name, SpySelected, Int(b in team)) else Seen(b.name)
  }

  function SelectionObsSeq(bots: seq<Bot>, team: seq<Bot>): (r: seq<Obs>) {
    seq(|bots|, i requires 0 <= i < |bots| => SelectionObs(bots[i], team))
  }

  /** onPlayerSelected: nothing for a spy selector. */
  function SelectObs(player: Bot, team: seq<Bot>, bots: seq<Bot>): (r: seq<Obs>) {
    if player.spy then []
    else [Sampled(player.name, Selections, Int(|SpiesIn(team)| == 0))] + SelectionObsSeq(bots, team)
  }

  /** The fold in main, one bot: a spy scores when the Resistance lost, anyone else when it won. */
  function OutcomeObs(b: Bot, won: bool): (r: Obs) {
    if b.spy then Sampled(b.name, SpyWins, Int(!won)) else Sampled(b.name, ResWins, Int(won))
  }

  function GameObs(bots: seq<Bot>, won: bool): (r: seq<Obs>) {
    seq(|bots|, i requires 0 <= i < |bots| => OutcomeObs(bots[i], won))
  }

  /**
   * One call Game.run makes to a hook of CompetitionRound:
   * onPlayerSelected(leader, team) or onPlayerVoted(player, vote, leader, team).
   */
  datatype HookCall =
    | Selected(leader: Bot, team: seq<Bot>)
    | Voted(voter: Bot, vote: bool, leader: Bot, team: seq<Bot>)

  /** The updates one hook call makes, in a game with the given bots. */
  function CallObs(c: HookCall, bots: seq<Bot>): (r: seq<Obs>) {
    match c
    case Selected(leader, team) => SelectObs(leader, team, bots)
    case Voted(voter, vote, _, team) => VoteObs(voter, vote, team)
  }

  /** The updates the hook calls of one game make, in order. */
  function HooksObs(calls: seq<HookCall>, bots: seq<Bot>): (r: seq<Obs>) {
    if calls == [] then []
    else HooksObs(calls[..|calls| - 1], bots) + CallObs(calls[|calls| - 1], bots)
  }

  /** One iteration of main: the hooks fired while the game runs, then the fold of its outcome. */
  function RoundObs(g: CompetitionRound): (r: seq<Obs>) {
    HooksObs(g.calls, g.bots) + GameObs(g.bots, g.won)
  }

  /** The updates of main over the given rounds, in order. */
  function GamesObs(played: seq<CompetitionRound>): (r: seq<Obs>) {
    if played == [] then []
    else GamesObs(played[..|played| - 1]) + RoundObs(played[|played| - 1])
  }

  /** The events of the spyVoted loop, one spy further. */
  lemma SpyVotedObsSnoc(spies: seq<Bot>, vote: bool, i: nat)
    requires i < |spies|
    ensures SpyVotedObs(spies[..i + 1], vote)
         == SpyVotedObs(spies[..i], vote) + [Sampled(spies[i].name, SpyVoted, Int(vote))]
  {
  }

  /** The events of the selection loop, one bot further. */
  lemma SelectionObsSeqSnoc(bots: seq<Bot>, team: seq<Bot>, i: nat)
    requires i < |bots|
    ensures SelectionObsSeq(bots[..i + 1], team) == SelectionObsSeq(bots[..i], team) + [SelectionObs(bots[i], team)]
  {
  }

  /** The events of the fold of one game, one bot further. */
  lemma GameObsSnoc(bots: seq<Bot>, won: bool, i: nat)
    requires i < |bots|
    ensures GameObs(bots[..i + 1], won) == GameObs(bots[..i], won) + [OutcomeObs(bots[i], won)]
  {
  }

  /** One more event after a fixed head. */
  lemma ApplyAfterHead(t: Table, head: seq<Obs>, done: seq<Obs>, o: Obs)
    ensures Apply(t, head + (done + [o])) == Observe(Apply(t, head + done), o)
  {
    assert head + (done + [o]) == (head + done) + [o];
    ApplySnoc(t, head + done, o);
  }

  /** The spyVoted loop of onPlayerVoted, one spy further, after the voter's own sample. */
  lemma SpyVotedStep(t: Table, head: seq<Obs>, spies: seq<Bot>, vote: bool, i: nat)
    requires i < |spies|
    ensures Apply(t, head + SpyVotedObs(spies[..i + 1], vote))
         == Observe(Apply(t, head + SpyVotedObs(spies[..i], vote)), Sampled(spies[i].name, SpyVoted, Int(vote)))
  {
    SpyVotedObsSnoc(spies, vote, i);
    ApplyAfterHead(t, head, SpyVotedObs(spies[..i], vote), Sampled(spies[i].name, SpyVoted, Int(vote)));
  }

  /** The selection loop of onPlayerSelected, one bot further, after the selector's own sample. */
  lemma SelectionStep(t: Table, head: seq<Obs>, bots: seq<Bot>, team: seq<Bot>, i: nat)
    requires i < |bots|
    ensures Apply(t, head + SelectionObsSeq(bots[..i + 1], team))
         == Observe(Apply(t, head + SelectionObsSeq(bots[..i], team)), SelectionObs(bots[i], team))
  {
    SelectionObsSeqSnoc(bots, team, i);
    ApplyAfterHead(t, head, SelectionObsSeq(bots[..i], team), SelectionObs(bots[i], team));
  }

  /** The hook calls of a game, one call further. */
  lemma HooksObsSnoc(calls: seq<HookCall>, bots: seq<Bot>, i: nat)
    requires i < |calls|
    ensures HooksObs(calls[..i + 1], bots) == HooksObs(calls[..i], bots) + CallObs(calls[i], bots)
  {
    assert calls[..i + 1][..i] == calls[..i];
  }

  /** The rounds of main, one round further: the hooks of that round, then its outcome. */
  lemma RoundStep(t: Table, played: seq<CompetitionRound>, i: nat)
    requires 0 < i <= |played|
    ensures Apply(t, GamesObs(played[..i]))
         == Apply(Apply(Apply(t, GamesObs(played[..i - 1])), HooksObs(played[i - 1].calls, played[i - 1].bots)),
                  GameObs(played[i - 1].bots, played[i - 1].won))
  {
    var g := played[i - 1];
    assert played[..i][..i - 1] == played[..i - 1];
    assert GamesObs(played[..i]) == GamesObs(played[..i - 1]) + RoundObs(g);
    ApplyConcat(t, GamesObs(played[..i - 1]), RoundObs(g));
    ApplyConcat(Apply(t, GamesObs(played[..i - 1])), HooksObs(g.calls, g.bots), GameObs(g.bots, g.won));
  }

  // ---------------------------------------------------------------------
  // Counting lemmas
  // ---------------------------------------------------------------------

  lemma SingleCounts(o: Obs, n: string, c: Counter)
    ensures SampleCount([o], n, c) == if o.Sampled? && o.name == n && o.counter == c then 1 else 0
    ensures ValueSum([o], n, c) == if o.Sampled? && o.name == n && o.counter == c then o.value else 0
  {
    assert [o][..0] == [];
  }

  lemma AppendCounts(os: seq<Obs>, o: Obs, n: string, c: Counter)
    ensures SampleCount(os + [o], n, c) == SampleCount(os, n, c) + SampleCount([o], n, c)
    ensures ValueSum(os + [o], n, c) == ValueSum(os, n, c) + ValueSum([o], n, c)
  {
    assert (os + [o])[..|os|] == os;
    SingleCounts(o, n, c);
  }

  /** Updates that touch the bots' names one for one touch exactly the bots' names. */
  lemma NamesOfEach(bots: seq<Bot>, os: seq<Obs>)
    requires |os| == |bots|
    requires forall i :: 0 <= i < |os| ==> os[i].name == bots[i].name
    ensures Names(os) == BotNames(bots)
  {
    forall x | x in Names(os) ensures x in BotNames(bots) {
      var i :| 0 <= i < |os| && os[i].name == x;
      assert bots[i] in bots;
    }
    forall x | x in BotNames(bots) ensures x in Names(os) {
      var i :| 0 <= i < |bots| && bots[i].name == x;
      assert os[i] in os;
    }
  }

  lemma NamesConcat(a: seq<Obs>, b: seq<Obs>)
    ensures Names(a + b) == Names(a) + Names(b)
  {
    forall x | x in Names(a + b) ensures x in Names(a) + Names(b) {
      var o :| o in a + b && o.name == x;
    }
  }

  /** The spyVoted loop samples each name once per spy on the team carrying it. */
  lemma SpyVotedCounts(team: seq<Bot>, vote: bool, n: string, c: Counter)
    ensures SampleCount(SpyVotedObs(SpiesIn(team), vote), n, c)
         == if c == SpyVoted then Occurrences(team, n, true) else 0
    ensures ValueSum(SpyVotedObs(SpiesIn(team), vote), n, c)
         == if c == SpyVoted && vote then Occurrences(team, n, true) else 0
  {
    SpyVotedObsCounts(SpiesIn(team), vote, n, c);
    SpiesInOccurrences(team, n);
  }

  /** SpyVotedCounts over a list of spies. */
  lemma {:induction false} SpyVotedObsCounts(spies: seq<Bot>, vote: bool, n: string, c: Counter)
    requires forall b :: b in spies ==> b.spy
    ensures SampleCount(SpyVotedObs(spies, vote), n, c)
         == if c == SpyVoted then Occurrences(spies, n, true) else 0
    ensures ValueSum(SpyVotedObs(spies, vote), n, c)
         == if c == SpyVoted && vote then Occurrences(spies, n, true) else 0
  {
    if spies != [] {
      var k := |spies| - 1;
      var init := spies[..k];
      assert spies[..k + 1] == spies;
      assert spies[k] in spies;
      SpyVotedObsCounts(init, vote, n, c);
      SpyVotedObsSnoc(spies, vote, k);
      AppendCounts(SpyVotedObs(init, vote), Sampled(spies[k].name, SpyVoted, Int(vote)), n, c);
    }
  }

  /** Only spies count as spies: filtering the team keeps every spy seat. */
  lemma {:induction false} SpiesInOccurrences(team: seq<Bot>, n: string)
    ensures Occurrences(SpiesIn(team), n, true) == Occurrences(team, n, true)
  {
    if team != [] {
      var init, b := team[..|team| - 1], team[|team| - 1];
      SpiesInOccurrences(init, n);
      var spies := SpiesIn(team);
      if b.spy {
        assert spies[..|spies| - 1] == SpiesIn(init);
      } else {
        assert spies == SpiesIn(init);
      }
    }
  }

  /** The loop over the game's bots in onPlayerSelected samples spySelected once per spy seat. */
  lemma {:induction false} SelectionCounts(bots: seq<Bot>, team: seq<Bot>, n: string, c: Counter)
    ensures SampleCount(SelectionObsSeq(bots, team), n, c)
         == if c == SpySelected then Occurrences(bots, n, true) else 0
    ensures ValueSum(SelectionObsSeq(bots, team), n, c)
         == if c == SpySelected then SelectedOccurrences(bots, n, team) else 0
  {
    if bots != [] {
      var init, b := bots[..|bots| - 1], bots[|bots| - 1];
      SelectionCounts(init, team, n, c);
      assert SelectionObsSeq(bots, team) == SelectionObsSeq(init, team) + [SelectionObs(b, team)];
      AppendCounts(SelectionObsSeq(init, team), SelectionObs(b, team), n, c);
    }
  }

  /** The fold in main samples each name once per seat it held, in the counter of that seat's role. */
  lemma {:induction false} GameCounts(bots: seq<Bot>, won: bool, n: string, c: Counter)
    ensures SampleCount(GameObs(bots, won), n, c)
         == if c == ResWins then Occurrences(bots, n, false)
            else if c == SpyWins then Occurrences(bots, n, true)
            else 0
    ensures ValueSum(GameObs(bots, won), n, c)
         == if c == ResWins && won then Occurrences(bots, n, false)
            else if c == SpyWins && !won then Occurrences(bots, n, true)
            else 0
  {
    if bots != [] {
      var init, b := bots[..|bots| - 1], bots[|bots| - 1];
      GameCounts(init, won, n, c);
      assert GameObs(bots, won) == GameObs(init, won) + [OutcomeObs(b, won)];
      AppendCounts(GameObs(init, won), OutcomeObs(b, won), n, c);
    }
  }

  /** Every seat named n is either a Resistance seat or a spy seat. */
  lemma {:induction false} SeatsSplit(bots: seq<Bot>, n: string)
    ensures Seats(bots, n) == Occurrences(bots, n, false) + Occurrences(bots, n, true)
  {
    if bots != [] {
      SeatsSplit(bots[..|bots| - 1], n);
    }
  }

  /** Every value the hooks and the fold sample is int(bool). */
  lemma HooksSampleZeroOne(player: Bot, vote: bool, team: seq<Bot>, bots: seq<Bot>, won: bool)
    ensures ZeroOne(VoteObs(player, vote, team))
    ensures ZeroOne(SelectObs(player, team, bots))
    ensures ZeroOne(GameObs(bots, won))
  {
  }

  // ---------------------------------------------------------------------
  // What each hook does to the table
  // ---------------------------------------------------------------------

  /** The samples onPlayerVoted addresses to counter c of name n. */
  lemma VoteCounts(player: Bot, vote: bool, team: seq<Bot>, n: string, c: Counter)
    requires !player.spy
    ensures SampleCount(VoteObs(player, vote, team), n, c)
         == (if n == player.name && c == VoterObs(player, vote, team).counter then 1 else 0)
          + (if c == SpyVoted then Occurrences(team, n, true) else 0)
    ensures ValueSum(VoteObs(player, vote, team), n, c)
         == (if n == player.name && c == VoterObs(player, vote, team).counter then VoterObs(player, vote, team).value else 0)
          + (if c == SpyVoted && vote then Occurrences(team, n, true) else 0)
  {
    var head, tail := [VoterObs(player, vote, team)], SpyVotedObs(SpiesIn(team), vote);
    assert VoteObs(player, vote, team) == head + tail;
    CountsConcat(head, tail, n, c);
    SpyVotedCounts(team, vote, n, c);
    SingleCounts(head[0], n, c);
  }

  /** The samples onPlayerSelected addresses to counter c of name n. */
  lemma SelectCounts(player: Bot, team: seq<Bot>, bots: seq<Bot>, n: string, c: Counter)
    requires !player.spy
    ensures SampleCount(SelectObs(player, team, bots), n, c)
         == (if n == player.name && c == Selections then 1 else 0)
          + (if c == SpySelected then Occurrences(bots, n, true) else 0)
    ensures ValueSum(SelectObs(player, team, bots), n, c)
         == (if n == player.name && c == Selections then Int(|SpiesIn(team)| == 0) else 0)
          + (if c == SpySelected then SelectedOccurrences(bots, n, team) else 0)
  {
    var head := [Sampled(player.name, Selections, Int(|SpiesIn(team)| == 0))];
    var tail := SelectionObsSeq(bots, team);
    assert SelectObs(player, team, bots) == head + tail;
    CountsConcat(head, tail, n, c);
    SelectionCounts(bots, team, n, c);
    SingleCounts(head[0], n, c);
  }

  /** A team is spy-free exactly when the comprehension of its spies is empty. */
  lemma SpyFreeIffNoSpies(team: seq<Bot>)
    ensures SpyFree(team) <==> SpiesIn(team) == []
  {
    if SpiesIn(team) != [] {
      assert SpiesIn(team)[0] in SpiesIn(team);
    }
  }

  /** onPlayerVoted with a spy voter leaves the whole table unchanged. */
  lemma SpyVoteIgnored(t: Table, player: Bot, vote: bool, team: seq<Bot>)
    requires player.spy
    ensures Apply(t, VoteObs(player, vote, team)) == t
  {
  }

  /**
   * onPlayerVoted with a Resistance voter: exactly one of the voter's votesRes
   * (for a spy-free team, sampling the vote) or votesSpy (otherwise, sampling
   * its negation) gains one sample; each name gains one spyVoted sample of the
   * vote per spy on the team carrying it; nothing else moves, and the voter and
   * every spy on the team end up with an entry.
   */
  lemma ResistanceVote(t: Table, player: Bot, vote: bool, team: seq<Bot>, n: string)
    requires !player.spy
    ensures var before, after := Lookup(t, n), Lookup(Apply(t, VoteObs(player, vote, team)), n);
            var asVoter, k := n == player.name, Occurrences(team, n, true);
            (&& Moved(before.votesRes, after.votesRes,
                      if asVoter && SpyFree(team) then 1 else 0,
                      if asVoter && SpyFree(team) then Int(vote) else 0)
             && Moved(before.votesSpy, after.votesSpy,
                      if asVoter && !SpyFree(team) then 1 else 0,
                      if asVoter && !SpyFree(team) then Int(!vote) else 0)
             && Moved(before.spyVoted, after.spyVoted, k, if vote then k else 0)
             && after.resWins == before.resWins && after.spyWins == before.spyWins
             && after.spySelected == before.spySelected && after.selections == before.selections)
  {
    var before, after := Lookup(t, n), Lookup(Apply(t, VoteObs(player, vote, team)), n);
    var asVoter, free, k := n == player.name, SpyFree(team), Occurrences(team, n, true);
    forall c
      ensures Moved(Get(before, c), Get(after, c),
                    (if asVoter && c == (if free then VotesRes else VotesSpy) then 1 else 0)
                    + (if c == SpyVoted then k else 0),
                    (if asVoter && c == (if free then VotesRes else VotesSpy)
                     then Int(if free then vote else !vote) else 0)
                    + (if c == SpyVoted && vote then k else 0))
    {
      VoteMoved(t, player, vote, team, n, c);
    }
    VoteMovedOnly(before, after, asVoter, free, vote, k);
  }

  /** ResistanceVote on one record: the two vote counters and spyVoted move, the other four stay. */
  lemma VoteMovedOnly(before: CompetitionStatistics, after: CompetitionStatistics,
                      asVoter: bool, free: bool, vote: bool, k: int)
    requires forall c :: Moved(Get(before, c), Get(after, c),
                               (if asVoter && c == (if free then VotesRes else VotesSpy) then 1 else 0)
                               + (if c == SpyVoted then k else 0),
                               (if asVoter && c == (if free then VotesRes else VotesSpy)
                                then Int(if free then vote else !vote) else 0)
                               + (if c == SpyVoted && vote then k else 0))
    ensures Moved(before.votesRes, after.votesRes,
                  if asVoter && free then 1 else 0, if asVoter && free then Int(vote) else 0)
    ensures Moved(before.votesSpy, after.votesSpy,
                  if asVoter && !free then 1 else 0, if asVoter && !free then Int(!vote) else 0)
    ensures Moved(before.spyVoted, after.spyVoted, k, if vote then k else 0)
    ensures after.resWins == before.resWins && after.spyWins == before.spyWins
    ensures after.spySelected == before.spySelected && after.selections == before.selections
  {
    assert Moved(Get(before, VotesRes), Get(after, VotesRes),
                 if asVoter && free then 1 else 0, if asVoter && free then Int(vote) else 0);
    assert Moved(Get(before, VotesSpy), Get(after, VotesSpy),
                 if asVoter && !free then 1 else 0, if asVoter && !free then Int(!vote) else 0);
    assert Moved(Get(before, SpyVoted), Get(after, SpyVoted), k, if vote then k else 0);
    assert Moved(Get(before, ResWins), Get(after, ResWins), 0, 0);
    assert Moved(Get(before, SpyWins), Get(after, SpyWins), 0, 0);
    assert Moved(Get(before, SpySelected), Get(after, SpySelected), 0, 0);
    assert Moved(Get(before, Selections), Get(after, Selections), 0, 0);
  }

  /** ResistanceVote for one counter. */
  lemma VoteMoved(t: Table, player: Bot, vote: bool, team: seq<Bot>, n: string, c: Counter)
    requires !player.spy
    ensures var asVoter, k := n == player.name, Occurrences(team, n, true);
            Moved(Get(Lookup(t, n), c), Get(Lookup(Apply(t, VoteObs(player, vote, team)), n), c),
                  (if asVoter && c == (if SpyFree(team) then VotesRes else VotesSpy) then 1 else 0)
                  + (if c == SpyVoted then k else 0),
                  (if asVoter && c == (if SpyFree(team) then VotesRes else VotesSpy)
                   then Int(if SpyFree(team) then vote else !vote) else 0)
                  + (if c == SpyVoted && vote then k else 0))
  {
    SpyFreeIffNoSpies(team);
    ApplyAt(t, VoteObs(player, vote, team), n, c);
    VoteCounts(player, vote, team, n, c);
  }

  /** onPlayerVoted with a Resistance voter gives the voter and every spy on the team an entry, and removes none. */
  lemma ResistanceVoteKeys(t: Table, player: Bot, vote: bool, team: seq<Bot>)
    requires !player.spy
    ensures Apply(t, VoteObs(player, vote, team)).Keys
         == t.Keys + {player.name} + BotNames(SpiesIn(team))
  {
    ApplyKeys(t, VoteObs(player, vote, team));
    VoteNames(player, vote, team);
  }

  lemma VoteNames(player: Bot, vote: bool, team: seq<Bot>)
    requires !player.spy
    ensures Names(VoteObs(player, vote, team)) == {player.name} + BotNames(SpiesIn(team))
  {
    var head, tail := [VoterObs(player, vote, team)], SpyVotedObs(SpiesIn(team), vote);
    assert VoteObs(player, vote, team) == head + tail;
    NamesConcat(head, tail);
    NamesOfEach(SpiesIn(team), tail);
  }

  /** onPlayerSelected with a spy selector changes nothing. */
  lemma SpySelectionIgnored(t: Table, player: Bot, team: seq<Bot>, bots: seq<Bot>)
    requires player.spy
    ensures Apply(t, SelectObs(player, team, bots)) == t
  {
  }

  /**
   * onPlayerSelected with a Resistance selector: the selector's selections
   * gains one sample, 1 exactly when the team is spy-free; each name gains one
   * spySelected sample per spy seat it holds, 1 for each such seat on the
   * team; nothing else moves; every bot of the game ends up with an entry.
   */
  lemma ResistanceSelection(t: Table, player: Bot, team: seq<Bot>, bots: seq<Bot>, n: string)
    requires !player.spy
    ensures var before, after := Lookup(t, n), Lookup(Apply(t, SelectObs(player, team, bots)), n);
            var asSelector := n == player.name;
            (&& Moved(before.selections, after.selections,
                      if asSelector then 1 else 0,
                      if asSelector && SpyFree(team) then 1 else 0)
             && Moved(before.spySelected, after.spySelected,
                      Occurrences(bots, n, true), SelectedOccurrences(bots, n, team))
             && after.resWins == before.resWins && after.spyWins == before.spyWins
             && after.votesRes == before.votesRes && after.votesSpy == before.votesSpy
             && after.spyVoted == before.spyVoted)
  {
    var before, after := Lookup(t, n), Lookup(Apply(t, SelectObs(player, team, bots)), n);
    var asSelector, free := n == player.name, SpyFree(team);
    var k, chosen := Occurrences(bots, n, true), SelectedOccurrences(bots, n, team);
    forall c
      ensures Moved(Get(before, c), Get(after, c),
                    (if asSelector && c == Selections then 1 else 0) + (if c == SpySelected then k else 0),
                    (if asSelector && c == Selections && free then 1 else 0) + (if c == SpySelected then chosen else 0))
    {
      SelectionMoved(t, player, team, bots, n, c);
    }
    SelectionMovedOnly(before, after, asSelector, free, k, chosen);
  }

  /** ResistanceSelection on one record: selections and spySelected move, the other five stay. */
  lemma SelectionMovedOnly(before: CompetitionStatistics, after: CompetitionStatistics,
                           asSelector: bool, free: bool, k: int, chosen: int)
    requires forall c :: Moved(Get(before, c), Get(after, c),
                               (if asSelector && c == Selections then 1 else 0) + (if c == SpySelected then k else 0),
                               (if asSelector && c == Selections && free then 1 else 0)
                               + (if c == SpySelected then chosen else 0))
    ensures Moved(before.selections, after.selections,
                  if asSelector then 1 else 0, if asSelector && free then 1 else 0)
    ensures Moved(before.spySelected, after.spySelected, k, chosen)
    ensures after.resWins == before.resWins && after.spyWins == before.spyWins
    ensures after.votesRes == before.votesRes && after.votesSpy == before.votesSpy
    ensures after.spyVoted == before.spyVoted
  {
    assert Moved(Get(before, Selections), Get(after, Selections),
                 if asSelector then 1 else 0, if asSelector && free then 1 else 0);
    assert Moved(Get(before, SpySelected), Get(after, SpySelected), k, chosen);
    assert Moved(Get(before, ResWins), Get(after, ResWins), 0, 0);
    assert Moved(Get(before, SpyWins), Get(after, SpyWins), 0, 0);
    assert Moved(Get(before, VotesRes), Get(after, VotesRes), 0, 0);
    assert Moved(Get(before, VotesSpy), Get(after, VotesSpy), 0, 0);
    assert Moved(Get(before, SpyVoted), Get(after, SpyVoted), 0, 0);
  }

  /** ResistanceSelection for one counter. */
  lemma SelectionMoved(t: Table, player: Bot, team: seq<Bot>, bots: seq<Bot>, n: string, c: Counter)
    requires !player.spy
    ensures var asSelector := n == player.name;
            Moved(Get(Lookup(t, n), c), Get(Lookup(Apply(t, SelectObs(player, team, bots)), n), c),
                  (if asSelector && c == Selections then 1 else 0)
                  + (if c == SpySelected then Occurrences(bots, n, true) else 0),
                  (if asSelector && c == Selections && SpyFree(team) then 1 else 0)
                  + (if c == SpySelected then SelectedOccurrences(bots, n, team) else 0))
  {
    SpyFreeIffNoSpies(team);
    ApplyAt(t, SelectObs(player, team, bots), n, c);
    SelectCounts(player, team, bots, n, c);
  }

  /** onPlayerSelected with a Resistance selector gives the selector and every bot of the game an entry, and removes none. */
  lemma ResistanceSelectionKeys(t: Table, player: Bot, team: seq<Bot>, bots: seq<Bot>)
    requires !player.spy
    ensures Apply(t, SelectObs(player, team, bots)).Keys == t.Keys + {player.name} + BotNames(bots)
  {
    ApplyKeys(t, SelectObs(player, team, bots));
    SelectNames(player, team, bots);
  }

  lemma SelectNames(player: Bot, team: seq<Bot>, bots: seq<Bot>)
    requires !player.spy
    ensures Names(SelectObs(player, team, bots)) == {player.name} + BotNames(bots)
  {
    var head := [Sampled(player.name, Selections, Int(|SpiesIn(team)| == 0))];
    var tail := SelectionObsSeq(bots, team);
    assert SelectObs(player, team, bots) == head + tail;
    NamesConcat(head, tail);
    NamesOfEach(bots, tail);
  }

  /**
   * The fold of one game in main: each seat gives its name exactly one
   * win/loss sample, in spyWins (1 when the Resistance lost) for a spy seat
   * and in resWins (1 when it won) otherwise; nothing else moves; every bot
   * of the game ends up with an entry.
   */
  lemma GameFold(t: Table, bots: seq<Bot>, won: bool, n: string)
    ensures Apply(t, GameObs(bots, won)).Keys == t.Keys + BotNames(bots)
    ensures var before, after := Lookup(t, n), Lookup(Apply(t, GameObs(bots, won)), n);
            var res, spy := Occurrences(bots, n, false), Occurrences(bots, n, true);
            (&& Moved(before.resWins, after.resWins, res, if won then res else 0)
             && Moved(before.spyWins, after.spyWins, spy, if won then 0 else spy)
             && after.votesRes == before.votesRes && after.votesSpy == before.votesSpy
             && after.spyVoted == before.spyVoted && after.spySelected == before.spySelected
             && after.selections == before.selections)
  {
    ApplyKeys(t, GameObs(bots, won));
    NamesOfEach(bots, GameObs(bots, won));
    var before, after := Lookup(t, n), Lookup(Apply(t, GameObs(bots, won)), n);
    var res, spy := Occurrences(bots, n, false), Occurrences(bots, n, true);
    forall c
      ensures Moved(Get(before, c), Get(after, c),
                    if c == ResWins then res else if c == SpyWins then spy else 0,
                    if c == ResWins && won then res else if c == SpyWins && !won then spy else 0)
    {
      GameMoved(t, bots, won, n, c);
    }
    WinsMovedOnly(before, after, res, spy, won);
  }

  /** GameFold on one record: the two win counters move, the other five stay. */
  lemma WinsMovedOnly(before: CompetitionStatistics, after: CompetitionStatistics, res: int, spy: int, won: bool)
    requires forall c :: Moved(Get(before, c), Get(after, c),
                               if c == ResWins then res else if c == SpyWins then spy else 0,
                               if c == ResWins && won then res else if c == SpyWins && !won then spy else 0)
    ensures Moved(before.resWins, after.resWins, res, if won then res else 0)
    ensures Moved(before.spyWins, after.spyWins, spy, if won then 0 else spy)
    ensures after.votesRes == before.votesRes && after.votesSpy == before.votesSpy
    ensures after.spyVoted == before.spyVoted && after.spySelected == before.spySelected
    ensures after.selections == before.selections
  {
    assert Moved(Get(before, ResWins), Get(after, ResWins), res, if won then res else 0);
    assert Moved(Get(before, SpyWins), Get(after, SpyWins), spy, if won then 0 else spy);
    assert Moved(Get(before, VotesRes), Get(after, VotesRes), 0, 0);
    assert Moved(Get(before, VotesSpy), Get(after, VotesSpy), 0, 0);
    assert Moved(Get(before, SpyVoted), Get(after, SpyVoted), 0, 0);
    assert Moved(Get(before, SpySelected), Get(after, SpySelected), 0, 0);
    assert Moved(Get(before, Selections), Get(after, Selections), 0, 0);
  }

  /** GameFold for one counter. */
  lemma GameMoved(t: Table, bots: seq<Bot>, won: bool, n: string, c: Counter)
    ensures Moved(Get(Lookup(t, n), c), Get(Lookup(Apply(t, GameObs(bots, won)), n), c),
                  if c == ResWins then Occurrences(bots, n, false)
                  else if c == SpyWins then Occurrences(bots, n, true)
                  else 0,
                  if c == ResWins && won then Occurrences(bots, n, false)
                  else if c == SpyWins && !won then Occurrences(bots, n, true)
                  else 0)
  {
    ApplyAt(t, GameObs(bots, won), n, c);
    GameCounts(bots, won, n, c);
  }

  /** The hooks never sample resWins or spyWins: only the fold in main does. */
  lemma {:induction false} HooksLeaveWins(calls: seq<HookCall>, bots: seq<Bot>, n: string, c: Counter)
    requires c == ResWins || c == SpyWins
    ensures SampleCount(HooksObs(calls, bots), n, c) == 0
    ensures ValueSum(HooksObs(calls, bots), n, c) == 0
  {
    if calls != [] {
      var init, last := calls[..|calls| - 1], calls[|calls| - 1];
      HooksLeaveWins(init, bots, n, c);
      CountsConcat(HooksObs(init, bots), CallObs(last, bots), n, c);
      match last
      case Selected(leader, team) =>
        if !leader.spy { SelectCounts(leader, team, bots, n, c); }
      case Voted(voter, vote, _, team) =>
        if !voter.spy { VoteCounts(voter, vote, team, n, c); }
    }
  }

  /**
   * One whole iteration of main, hooks included, moves a name's win
   * counters exactly as the outcome fold alone does: one sample per seat
   * of that role, scoring 1 when that role won.
   */
  lemma RoundWins(t: Table, g: CompetitionRound, n: string, c: Counter)
    requires c == ResWins || c == SpyWins
    ensures Moved(Get(Lookup(t, n), c), Get(Lookup(Apply(t, RoundObs(g)), n), c),
                  Occurrences(g.bots, n, c == SpyWins),
                  if (c == ResWins) == g.won then Occurrences(g.bots, n, c == SpyWins) else 0)
  {
    ApplyAt(t, RoundObs(g), n, c);
    CountsConcat(HooksObs(g.calls, g.bots), GameObs(g.bots, g.won), n, c);
    HooksLeaveWins(g.calls, g.bots, n, c);
    GameCounts(g.bots, g.won, n, c);
  }

  /** Over a whole iteration of main, the corrected total() gains one sample per seat. */
  lemma RoundCountedOnce(t: Table, g: CompetitionRound, n: string)
    ensures Lookup(Apply(t, RoundObs(g)), n).TotalCorrected().samples
         == Lookup(t, n).TotalCorrected().samples + Seats(g.bots, n)
  {
    RoundWins(t, g, n, ResWins);
    RoundWins(t, g, n, SpyWins);
    SeatsSplit(g.bots, n);
  }

  /**
   * Over the two win counters, one game adds exactly one sample per seat:
   * a name's resWins.samples + spyWins.samples grows by the seats it held.
   */
  lemma GameAddsOneSamplePerSeat(t: Table, bots: seq<Bot>, won: bool, n: string)
    ensures var before, after := Lookup(t, n), Lookup(Apply(t, GameObs(bots, won)), n);
            (after.resWins.samples + after.spyWins.samples
             == before.resWins.samples + before.spyWins.samples + Seats(bots, n))
  {
    GameFold(t, bots, won, n);
    SeatsSplit(bots, n);
  }

  /** The corrected total() counts every game played, in either role, once per seat. */
  lemma GameCountedOnce(t: Table, bots: seq<Bot>, won: bool, n: string)
    ensures Lookup(Apply(t, GameObs(bots, won)), n).TotalCorrected().samples
         == Lookup(t, n).TotalCorrected().samples + Seats(bots, n)
  {
    GameAddsOneSamplePerSeat(t, bots, won, n);
  }

  /**
   * total() as written, over one game: its sample count grows by the
   * Resistance seats, and by the spy seats only when the spies won; its
   * total grows by the seats on the winning side.
   */
  lemma TotalAfterGame(t: Table, bots: seq<Bot>, won: bool, n: string)
    ensures won ==> Lookup(Apply(t, GameObs(bots, won)), n).Total()
                    == Variable(Lookup(t, n).Total().total + Occurrences(bots, n, false),
                                Lookup(t, n).Total().samples + Occurrences(bots, n, false))
    ensures !won ==> Lookup(Apply(t, GameObs(bots, won)), n).Total()
                     == Variable(Lookup(t, n).Total().total + Occurrences(bots, n, true),
                                 Lookup(t, n).Total().samples + Seats(bots, n))
  {
    GameMoved(t, bots, won, n, ResWins);
    GameMoved(t, bots, won, n, SpyWins);
    SeatsSplit(bots, n);
    TotalOfGame(Lookup(t, n), Lookup(Apply(t, GameObs(bots, won)), n), bots, n, won);
  }

  lemma TotalOfGame(before: CompetitionStatistics, after: CompetitionStatistics, bots: seq<Bot>, n: string, won: bool)
    requires Moved(Get(before, ResWins), Get(after, ResWins), Occurrences(bots, n, false), if won then Occurrences(bots, n, false) else 0)
    requires Moved(Get(before, SpyWins), Get(after, SpyWins), Occurrences(bots, n, true), if won then 0 else Occurrences(bots, n, true))
    requires Seats(bots, n) == Occurrences(bots, n, false) + Occurrences(bots, n, true)
    ensures won ==> after.Total() == Variable(before.Total().total + Occurrences(bots, n, false),
                                             before.Total().samples + Occurrences(bots, n, false))
    ensures !won ==> after.Total() == Variable(before.Total().total + Occurrences(bots, n, true),
                                              before.Total().samples + Seats(bots, n))
  {
    TotalOfOutcome(before, after, Occurrences(bots, n, false), Occurrences(bots, n, true), won);
  }

  /** total() as written, from the moves of the two win counters. */
  lemma TotalOfOutcome(before: CompetitionStatistics, after: CompetitionStatistics, res: nat, spy: nat, won: bool)
    requires Moved(before.resWins, after.resWins, res, if won then res else 0)
    requires Moved(before.spyWins, after.spyWins, spy, if won then 0 else spy)
    ensures after.Total() == (if won then Variable(before.Total().total + res, before.Total().samples + res)
                              else Variable(before.Total().total + spy, before.Total().samples + res + spy))
  {
  }

  /**
   * total() as written: a game in which a name sat only as spies, and the
   * spies lost, leaves its total() unchanged, although Seats(bots, n) games
   * were played.
   */
  lemma TotalMissesLostSpyGames(t: Table, bots: seq<Bot>, n: string)
    requires Occurrences(bots, n, false) == 0 && Seats(bots, n) > 0
    ensures Lookup(Apply(t, GameObs(bots, true)), n).Total() == Lookup(t, n).Total()
    ensures Lookup(Apply(t, GameObs(bots, true)), n).TotalCorrected().samples
         > Lookup(t, n).TotalCorrected().samples
  {
    TotalAfterGame(t, bots, true, n);
    GameCountedOnce(t, bots, true, n);
  }

  // ---------------------------------------------------------------------
  // CompetitionRunner.pickPlayersForRound
  // ---------------------------------------------------------------------

  /**
   * pickPlayersForRound: five independent random.choice draws from the
   * competitors, with replacement. draws stands for the random source: the
   * i-th draw is competitors[draws[i] % |competitors|]. None stands for the
   * IndexError random.choice raises on an empty list.
   */
  function PickPlayersForRound(competitors: seq<string>, draws: seq<nat>): (r: Option<seq<string>>)
    requires |draws| == 5
    ensures r.None? <==> competitors == []
    ensures r.Some? ==> |r.value| == 5 && forall x :: x in r.value ==> x in competitors
  {
    if competitors == [] then None
    else Some(seq(5, i requires 0 <= i < 5 => competitors[draws[i] % |competitors|]))
  }

  /** i is one of the values `range(lo, hi)` yields. */
  predicate InRange(i: int, lo: int, hi: int) {
    lo <= i < hi
  }

  /** Every roster of five competitors, repeats included, is a possible draw. */
  lemma AnyRosterCanBeDrawn(competitors: seq<string>, roster: seq<string>)
    requires |roster| == 5 && forall x :: x in roster ==> x in competitors
    ensures exists draws :: |draws| == 5 && PickPlayersForRound(competitors, draws) == Some(roster)
  {
    var draws := seq(5, i requires 0 <= i < 5 => IndexOf(competitors, roster[i]));
    assert competitors != [] by { assert roster[0] in roster; }
    var drawn := seq(5, i requires 0 <= i < 5 => competitors[draws[i] % |competitors|]);
    assert drawn == roster by {
      forall i | 0 <= i < 5 ensures drawn[i] == roster[i] {
        SmallMod(draws[i], |competitors|);
      }
    }
    assert PickPlayersForRound(competitors, draws) == Some(roster);
  }

  lemma SmallMod(a: nat, b: nat)
    requires a < b
    ensures a % b == a
  {
  }

  // ---------------------------------------------------------------------
  // The classes
  // ---------------------------------------------------------------------

  /** CompetitionRound: a Game whose hooks fold events into the shared table. */
  class CompetitionRound {
    /** Game.bots: the seated bots, roles assigned by Game. */
    const bots: seq<Bot>
    /** Game.won: whether the Resistance won, as Game.run leaves it. */
    const won: bool
    /** The hook calls Game.run makes while this game is played, in order. */
    const calls: seq<HookCall>
    /** The process-wide `statistics` table. */
    const statistics: StatisticsTable

    constructor(bots: seq<Bot>, won: bool, calls: seq<HookCall>, statistics: StatisticsTable)
      ensures this.bots == bots && this.won == won && this.calls == calls && this.statistics == statistics
    {
      this.bots := bots;
      this.won := won;
      this.calls := calls;
      this.statistics := statistics;
    }

    /** What g.run() does to the table: each hook call of the game, in order. */
    method RunHooks()
      requires statistics.Valid()
      modifies statistics
      ensures statistics.Valid()
      ensures statistics.entries == Apply(old(statistics.entries), HooksObs(calls, bots))
    {
      ghost var t0 := statistics.entries;
      for i := 0 to |calls|
        invariant statistics.Valid()
        invariant statistics.entries == Apply(t0, HooksObs(calls[..i], bots))
      {
        HooksObsSnoc(calls, bots, i);
        ApplyConcat(t0, HooksObs(calls[..i], bots), CallObs(calls[i], bots));
        match calls[i]
        case Selected(leader, team) => OnPlayerSelected(leader, team);
        case Voted(voter, vote, leader, team) => OnPlayerVoted(voter, vote, leader, team);
      }
      assert calls[..|calls|] == calls;
    }

    /** onPlayerVoted(player, vote, leader, team) */
    method OnPlayerVoted(player: Bot, vote: bool, leader: Bot, team: seq<Bot>)
      requires statistics.Valid()
      modifies statistics
      ensures statistics.Valid()
      ensures statistics.entries == Apply(old(statistics.entries), VoteObs(player, vote, team))
      ensures player.spy ==> statistics.entries == old(statistics.entries)
    {
      if player.spy {
        return;
      }
      var spies := SpiesIn(team);
      ghost var t0 := statistics.entries;
      if spies == [] {
        statistics.Record(player.name, VotesRes, Int(vote));
      } else {
        statistics.Record(player.name, VotesSpy, Int(!vote));
      }
      ghost var head := [VoterObs(player, vote, team)];
      ApplySnoc(t0, [], head[0]);
      assert head + SpyVotedObs(spies[..0], vote) == head;
      for i := 0 to |spies|
        invariant statistics.Valid()
        invariant statistics.entries == Apply(t0, head + SpyVotedObs(spies[..i], vote))
      {
        SpyVotedStep(t0, head, spies, vote, i);
        statistics.Record(spies[i].name, SpyVoted, Int(vote));
      }
      assert spies[..|spies|] == spies;
    }

    /** onPlayerSelected(player, team) */
    method OnPlayerSelected(player: Bot, team: seq<Bot>)
      requires statistics.Valid()
      modifies statistics
      ensures statistics.Valid()
      ensures statistics.entries == Apply(old(statistics.entries), SelectObs(player, team, bots))
      ensures player.spy ==> statistics.entries == old(statistics.entries)
    {
      if player.spy {
        return;
      }
      var spies := SpiesIn(team);
      ghost var t0 := statistics.entries;
      statistics.Record(player.name, Selections, Int(|spies| == 0));
      ghost var head := [Sampled(player.name, Selections, Int(|spies| == 0))];
      ApplySnoc(t0, [], head[0]);
      assert head + SelectionObsSeq(bots[..0], team) == head;
      for i := 0 to |bots|
        invariant statistics.Valid()
        invariant statistics.entries == Apply(t0, head + SelectionObsSeq(bots[..i], team))
      {
        var bot := bots[i];
        SelectionStep(t0, head, bots, team, i);
        if bot.spy {
          statistics.Record(bot.name, SpySelected, Int(bot in team));
        } else {
          statistics.Touch(bot.name);
        }
      }
      assert bots[..|bots|] == bots;
    }

    /** The loop of CompetitionRunner.main over this game's bots: one win/loss sample per seat. */
    method FoldOutcome()
      requires statistics.Valid()
      modifies statistics
      ensures statistics.Valid()
      ensures statistics.entries == Apply(old(statistics.entries), GameObs(bots, won))
    {
      ghost var t0 := statistics.entries;
      for j := 0 to |bots|
        invariant statistics.Valid()
        invariant statistics.entries == Apply(t0, GameObs(bots[..j], won))
      {
        var b := bots[j];
        if b.spy {
          statistics.Record(b.name, SpyWins, Int(!won));
        } else {
          statistics.Record(b.name, ResWins, Int(won));
        }
        GameObsSnoc(bots, won, j);
        ApplySnoc(t0, GameObs(bots[..j], won), OutcomeObs(b, won));
      }
      assert bots[..|bots|] == bots;
    }
  }

  /** CompetitionRunner: plays the rounds and folds each outcome into the table. */
  class CompetitionRunner {
    /** The competing bot classes, by name. */
    const competitors: seq<string>
    /** The number of rounds asked for; any int, as `int(sys.argv[1])` gives. */
    const rounds: int
    /** The games being played. */
    var games: seq<CompetitionRound>
    /** The process-wide `statistics` table. */
    const statistics: StatisticsTable

    /** `__init__(competitors, rounds = 10000)`, with the table the runner folds into. */
    constructor(competitors: seq<string>, statistics: StatisticsTable, rounds: int := 10000)
      ensures this.competitors == competitors && this.rounds == rounds
      ensures this.statistics == statistics && games == []
    {
      this.competitors := competitors;
      this.rounds := rounds;
      this.statistics := statistics;
      games := [];
    }

    /**
     * How many times `range(1, rounds + 1)` iterates: the indices it yields
     * are exactly 1..r, so none for rounds below 1.
     */
    function Iterations(): (r: nat)
      ensures rounds >= 0 ==> r == rounds
      ensures rounds < 0 ==> r == 0
      ensures forall i {:trigger InRange(i, 1, rounds + 1)} ::
                InRange(i, 1, rounds + 1) <==> InRange(i, 1, r + 1)
    {
      if rounds < 0 then 0 else rounds
    }

    /**
     * play: registers the game in `games` and runs it, which fires the
     * game's hook calls on the shared table.
     */
    method Play(g: CompetitionRound) returns (r: CompetitionRound)
      requires g.statistics == statistics && statistics.Valid()
      modifies this`games, statistics
      ensures r == g && games == old(games) + [g]
      ensures statistics.Valid()
      ensures statistics.entries == Apply(old(statistics.entries), HooksObs(g.calls, g.bots))
    {
      games := games + [g];
      g.RunHooks();
      r := g;
    }

    /**
     * main: for each of the rounds (played[i - 1] is the game of iteration
     * i), play it, which runs its hooks, fold one win/loss sample per bot
     * into the table, and remove the game from `games` again.
     */
    method Run(played: seq<CompetitionRound>)
      requires |played| == Iterations()
      requires statistics.Valid()
      requires forall g :: g in played ==> g.statistics == statistics
      modifies this`games, statistics
      ensures statistics.Valid()
      ensures statistics.entries == Apply(old(statistics.entries), GamesObs(played))
      ensures multiset(games) == multiset(old(games))
    {
      ghost var t0 := statistics.entries;
      for i := 1 to Iterations() + 1
        invariant statistics.Valid()
        invariant statistics.entries == Apply(t0, GamesObs(played[..i - 1]))
        invariant multiset(games) == multiset(old(games))
      {
        var g := Play(played[i - 1]);
        g.FoldOutcome();
        RoundStep(t0, played, i);
        games := RemoveFirst(games, g);
      }
      assert played[..Iterations()] == played;
    }
  }
}
