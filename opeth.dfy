/**
 * opeth.py: the Opeth bot. Its decisions (sabotage, select) are functions of
 * what the game tells it; its beliefs (my_guess, their_guess, spies_for_sure)
 * are fields its callbacks update in place.
 *
 * Players are values compared by equality; the game's Player class is not
 * part of this model. The random draws of `select` are parameters.
 */
module OpethBot {
  import opened Wrappers
  import opened Lists

  /** A seat at the table: its index and its bot's name. */
  datatype Player = Player(index: int, name: string)

  // ---------------------------------------------------------------------
  // sabotage
  // ---------------------------------------------------------------------

  /** `[s for s in team if s in spies]` */
  function SpiesOnTeam(team: seq<Player>, spies: seq<Player>): (r: seq<Player>)
    ensures forall p :: p in r <==> p in team && p in spies
    ensures |r| <= |team|
  {
    if team == [] then []
    else
      var init, p := team[..|team| - 1], team[|team| - 1];
      assert team == init + [p];
      SpiesOnTeam(init, spies) + (if p in spies then [p] else [])
  }

  /** The filter keeps each spy seat on the team, as often as the team holds it, and nothing else. */
  lemma {:induction false} SpiesOnTeamCounts(team: seq<Player>, spies: seq<Player>, p: Player)
    ensures multiset(SpiesOnTeam(team, spies))[p] == if p in spies then multiset(team)[p] else 0
  {
    if team != [] {
      var init, q := team[..|team| - 1], team[|team| - 1];
      assert team == init + [q];
      SpiesOnTeamCounts(init, spies, p);
    }
  }

  /** On a team that seats each player once, two spies a and b, and no other, are exactly the filtered list. */
  lemma TwoSpiesOnTeam(team: seq<Player>, spies: seq<Player>, a: Player, b: Player)
    requires Distinct(team) && a != b
    requires a in team && a in spies && b in team && b in spies
    requires forall p :: p in team && p in spies ==> p == a || p == b
    ensures multiset(SpiesOnTeam(team, spies)) == multiset{a, b}
  {
    forall p ensures multiset(SpiesOnTeam(team, spies))[p] == multiset{a, b}[p] {
      SpiesOnTeamCounts(team, spies, p);
      DistinctCounts(team, p);
    }
  }

  /** On a team that seats each player once, with at most one spy on it, the filtered list has at most one entry. */
  lemma OneSpyOnTeam(team: seq<Player>, spies: seq<Player>)
    requires Distinct(team)
    requires forall p, q :: p in team && p in spies && q in team && q in spies ==> p == q
    ensures |SpiesOnTeam(team, spies)| <= 1
  {
    var r := SpiesOnTeam(team, spies);
    if |r| > 1 {
      var x := r[0];
      assert r[0] in r && r[1] in r;
      assert r[1] == x;
      assert r == [x, x] + r[2..];
      SpiesOnTeamCounts(team, spies, x);
      DistinctCounts(team, x);
      assert false;
    }
  }

  /**
   * sabotage: with at most one spy on the team, always sabotage. With more:
   * the leader holds back, a spy under a spy leader sabotages, and otherwise
   * the spy with the higher index sabotages. None stands for the ValueError
   * `spies.remove(self)` raises when the bot is not one of the team's spies.
   */
  function Sabotage(me: Player, team: seq<Player>, spies: seq<Player>, leader: Player): (r: Option<bool>)
    ensures r.None? <==> |SpiesOnTeam(team, spies)| > 1 && me != leader
                         && leader !in SpiesOnTeam(team, spies) && me !in SpiesOnTeam(team, spies)
    ensures |SpiesOnTeam(team, spies)| <= 1 ==> r == Some(true)
  {
    var onTeam := SpiesOnTeam(team, spies);
    if |onTeam| > 1 then
      if me == leader then Some(false)
      else if leader in onTeam then Some(true)
      else if me !in onTeam then None
      else
        var others := RemoveFirst(onTeam, me);
        Some(me.index > others[0].index)
    else Some(true)
  }

  /** With more than one spy on the team, the leader never sabotages. */
  lemma LeaderHoldsBack(me: Player, team: seq<Player>, spies: seq<Player>)
    requires |SpiesOnTeam(team, spies)| > 1
    ensures Sabotage(me, team, spies, me) == Some(false)
  {
  }

  /** With more than one spy on the team and a spy leader, every other spy sabotages. */
  lemma FollowsSpyLeader(me: Player, team: seq<Player>, spies: seq<Player>, leader: Player)
    requires |SpiesOnTeam(team, spies)| > 1 && me != leader && leader in team && leader in spies
    ensures Sabotage(me, team, spies, leader) == Some(true)
  {
  }

  /** The spy left after removing one of exactly two. */
  lemma OtherOfTwo(s: seq<Player>, a: Player, b: Player)
    requires multiset(s) == multiset{a, b}
    ensures |s| == 2 && a in s && RemoveFirst(s, a)[0] == b
  {
    assert |multiset(s)| == 2;
    assert a in multiset(s);
    var r := RemoveFirst(s, a);
    assert multiset(r) == multiset{b};
    assert r[0] in multiset(r);
  }

  /**
   * Two spies on the team with different indices: whoever leads, exactly one
   * of them sabotages.
   */
  lemma PairSabotagesOnce(a: Player, b: Player, team: seq<Player>, spies: seq<Player>, leader: Player)
    requires multiset(SpiesOnTeam(team, spies)) == multiset{a, b} && a.index != b.index
    ensures Sabotage(a, team, spies, leader).Some? && Sabotage(b, team, spies, leader).Some?
    ensures Sabotage(a, team, spies, leader).value != Sabotage(b, team, spies, leader).value
  {
    PairMember(a, b, team, spies, leader);
    PairMember(b, a, team, spies, leader);
  }

  /** On a team that seats each player once, with at most one spy on it, every spy sabotages. */
  lemma LoneSpySabotages(me: Player, team: seq<Player>, spies: seq<Player>, leader: Player)
    requires Distinct(team)
    requires forall p, q :: p in team && p in spies && q in team && q in spies ==> p == q
    ensures Sabotage(me, team, spies, leader) == Some(true)
  {
    OneSpyOnTeam(team, spies);
  }

  /**
   * On a team that seats each player once, with exactly the two spies a and b
   * on it, of different indices: whoever leads, exactly one of them sabotages.
   */
  lemma TeamPairSabotagesOnce(a: Player, b: Player, team: seq<Player>, spies: seq<Player>, leader: Player)
    requires Distinct(team) && a.index != b.index
    requires a in team && a in spies && b in team && b in spies
    requires forall p :: p in team && p in spies ==> p == a || p == b
    ensures Sabotage(a, team, spies, leader).Some? && Sabotage(b, team, spies, leader).Some?
    ensures Sabotage(a, team, spies, leader).value != Sabotage(b, team, spies, leader).value
  {
    TwoSpiesOnTeam(team, spies, a, b);
    PairSabotagesOnce(a, b, team, spies, leader);
  }

  /** What one of exactly two spies on the team decides. */
  lemma PairMember(a: Player, b: Player, team: seq<Player>, spies: seq<Player>, leader: Player)
    requires multiset(SpiesOnTeam(team, spies)) == multiset{a, b} && a.index != b.index
    ensures Sabotage(a, team, spies, leader)
         == Some(if leader == a then false else if leader == b then true else a.index > b.index)
  {
    var onTeam := SpiesOnTeam(team, spies);
    OtherOfTwo(onTeam, a, b);
    assert b in multiset(onTeam);
    assert leader in onTeam <==> leader == a || leader == b by {
      assert leader in onTeam <==> leader in multiset(onTeam);
    }
  }

  // ---------------------------------------------------------------------
  // select
  // ---------------------------------------------------------------------

  /** `set(players) - set(spies)` */
  function NonSpies(players: seq<Player>, spies: seq<Player>): (r: set<Player>) {
    (set p | p in players) - (set s | s in spies)
  }

  /**
   * What random.sample(pool, k) returns when it succeeds on a list: k
   * entries at distinct positions, so k of the list's elements, each at
   * most as often as the list holds it.
   */
  predicate IsListSample(draw: seq<Player>, pool: seq<Player>, k: int) {
    |draw| == k && multiset(draw) <= multiset(pool)
  }

  /** What random.sample(pool, k) returns when it succeeds on a set: k distinct members. */
  predicate IsSample(draw: seq<Player>, pool: set<Player>, k: int) {
    |draw| == k && Distinct(draw) && forall x :: x in draw ==> x in pool
  }

  /** `not spy_spies`: the bot was told of no spy, so it picks as the Resistance. */
  predicate PicksAsResistance(spySpies: Option<seq<Player>>) {
    spySpies.None? || spySpies.value == []
  }

  /**
   * The size of the population select hands to random.sample: the list of
   * players for the Resistance, the set of non-spies for a spy.
   */
  function PopulationSize(spySpies: Option<seq<Player>>, players: seq<Player>): (r: nat) {
    if PicksAsResistance(spySpies) then |players| else |NonSpies(players, spySpies.value)|
  }

  /** The size of select's random.sample. */
  function SampleSize(spySpies: Option<seq<Player>>, count: int): (r: int) {
    if PicksAsResistance(spySpies) then count else count - 2
  }

  /** draw is a possible result of select's random.sample. */
  predicate IsDraw(spySpies: Option<seq<Player>>, players: seq<Player>, count: int, draw: seq<Player>) {
    if PicksAsResistance(spySpies) then IsListSample(draw, players, count)
    else IsSample(draw, NonSpies(players, spySpies.value), count - 2)
  }

  /**
   * select(players, count): draw stands for what random.sample returned; None
   * for the ValueError random.sample raises when the sample size is negative
   * or larger than the population. The Resistance picks count of the game's
   * players; a spy picks every spy, then count - 2 players who are not spies.
   */
  function Select(spySpies: Option<seq<Player>>, players: seq<Player>, count: int, draw: seq<Player>)
    : (r: Option<seq<Player>>)
    requires 0 <= SampleSize(spySpies, count) <= PopulationSize(spySpies, players)
             ==> IsDraw(spySpies, players, count, draw)
    ensures r.None? <==> !(0 <= SampleSize(spySpies, count) <= PopulationSize(spySpies, players))
    ensures r.Some? && PicksAsResistance(spySpies) ==>
              |r.value| == count && multiset(r.value) <= multiset(players)
    ensures r.Some? && !PicksAsResistance(spySpies) ==>
              var spies := spySpies.value;
              && |r.value| == |spies| + count - 2
              && r.value[..|spies|] == spies
              && forall p :: p in r.value[|spies|..] ==> p in players && p !in spies
  {
    if !(0 <= SampleSize(spySpies, count) <= PopulationSize(spySpies, players)) then None
    else if PicksAsResistance(spySpies) then Some(draw)
    else
      assert (spySpies.value + draw)[|spySpies.value|..] == draw;
      Some(spySpies.value + draw)
  }

  /**
   * In a game whose player list holds each seat once, the Resistance picks
   * count distinct players.
   */
  lemma ResistanceTeamIsDistinct(players: seq<Player>, count: int, draw: seq<Player>)
    requires Distinct(players) && 0 <= count <= |players| && IsListSample(draw, players, count)
    ensures var r := Select(None, players, count, draw);
            r.Some? && |r.value| == count && Distinct(r.value)
  {
    forall x ensures multiset(draw)[x] <= 1 {
      DistinctCounts(players, x);
    }
    CountsDistinct(draw);
  }

  /**
   * A spy told of two distinct spies picks a team of exactly count players
   * with no player twice, both spies on it.
   */
  lemma SpyTeamIsValid(spies: seq<Player>, players: seq<Player>, count: int, draw: seq<Player>)
    requires |spies| == 2 && Distinct(spies)
    requires 0 <= count - 2 <= |NonSpies(players, spies)| && IsSample(draw, NonSpies(players, spies), count - 2)
    ensures var r := Select(Some(spies), players, count, draw);
            && r.Some? && |r.value| == count && Distinct(r.value)
            && spies[0] in r.value && spies[1] in r.value
  {
    var team := spies + draw;
    assert Select(Some(spies), players, count, draw) == Some(team);
    forall i, j | 0 <= i < j < |team| ensures team[i] != team[j] {
      if j >= |spies| {
        assert team[j] == draw[j - |spies|];
        if i >= |spies| {
          assert team[i] == draw[i - |spies|];
        } else {
          assert team[i] in spies;
          assert team[j] !in spies by {
            assert draw[j - |spies|] in draw;
          }
        }
      }
    }
    assert team[0] == spies[0] && team[1] == spies[1];
  }

  // ---------------------------------------------------------------------
  // onGameRevealed
  // ---------------------------------------------------------------------

  function Min(a: int, b: int): (r: int)
    ensures r <= a && r <= b && (r == a || r == b)
  {
    if a < b then a else b
  }

  /** `dict(zip(players, [0] * 5))`: the first five players, each with score 0. */
  function ZeroScores(players: seq<Player>): (r: map<Player, int>)
    ensures forall p :: p in r <==> p in players[..Min(|players|, 5)]
    ensures forall p :: p in r ==> r[p] == 0
  {
    map p | p in players[..Min(|players|, 5)] :: 0
  }

  /** With at most five players, every player gets a score of 0. */
  lemma AllScoredUpToFive(players: seq<Player>)
    requires |players| <= 5
    ensures forall p :: p in players ==> p in ZeroScores(players) && ZeroScores(players)[p] == 0
  {
    assert players[..Min(|players|, 5)] == players;
  }

  /** zip stops at five: a sixth player who is not among the first five gets no score. */
  lemma SixthUnscored(players: seq<Player>)
    requires |players| > 5 && Distinct(players)
    ensures players[5] !in ZeroScores(players)
  {
    forall i | 0 <= i < 5 ensures players[..5][i] != players[5] {
      assert players[..5][i] == players[i];
    }
  }

  // ---------------------------------------------------------------------
  // Score updates
  // ---------------------------------------------------------------------

  /**
   * The scores after `m[p] += d` for each p of team, in order. (The source
   * fails on a player without a score; the callers below exclude that case.)
   */
  function Adjusted(m: map<Player, int>, team: seq<Player>, d: int): (r: map<Player, int>) {
    if team == [] then m
    else
      var r0, p := Adjusted(m, team[..|team| - 1], d), team[|team| - 1];
      if p in r0 then r0[p := r0[p] + d] else r0
  }

  /** Adjusting scores never adds or drops a player. */
  lemma AdjustedKeys(m: map<Player, int>, team: seq<Player>, d: int)
    ensures Adjusted(m, team, d).Keys == m.Keys
  {
  }

  /** A player with a score keeps one. */
  lemma {:induction false} AdjustedHas(m: map<Player, int>, team: seq<Player>, d: int, p: Player)
    requires p in m
    ensures p in Adjusted(m, team, d)
  {
    if team != [] {
      AdjustedHas(m, team[..|team| - 1], d, p);
    }
  }

  lemma MulSucc(d: int, k: int)
    ensures d * (k + 1) == d * k + d
  {
  }

  /** Each score moves by d once per occurrence of its player in team. */
  lemma {:induction false} AdjustedAt(m: map<Player, int>, team: seq<Player>, d: int, p: Player)
    requires p in m
    ensures p in Adjusted(m, team, d)
    ensures Adjusted(m, team, d)[p] == m[p] + d * multiset(team)[p]
  {
    AdjustedKeys(m, team, d);
    if team != [] {
      var init, last := team[..|team| - 1], team[|team| - 1];
      assert team == init + [last];
      assert multiset(team) == multiset(init) + multiset{last};
      AdjustedAt(m, init, d, p);
      AdjustedKeys(m, init, d);
      if last == p {
        MulSucc(d, multiset(init)[p]);
      }
    }
  }

  /** The team, one more player further. */
  lemma AdjustedSnoc(m: map<Player, int>, team: seq<Player>, d: int, i: nat)
    requires i < |team| && team[i] in m
    ensures team[i] in Adjusted(m, team[..i], d)
    ensures Adjusted(m, team[..i + 1], d)
         == Adjusted(m, team[..i], d)[team[i] := Adjusted(m, team[..i], d)[team[i]] + d]
  {
    assert team[..i + 1][..i] == team[..i];
    AdjustedHas(m, team[..i], d, team[i]);
  }

  /** Adjusting one more player after the ones already adjusted. */
  lemma AdjustedAppend(m: map<Player, int>, done: seq<Player>, p: Player, d: int)
    requires p in Adjusted(m, done, d)
    ensures Adjusted(m, done + [p], d) == Adjusted(m, done, d)[p := Adjusted(m, done, d)[p] + d]
  {
    var s := done + [p];
    assert s[..|s| - 1] == done && s[|s| - 1] == p;
  }

  /** `[p for p in team if p is not me]` */
  function Others(team: seq<Player>, me: Player): (r: seq<Player>) {
    if team == [] then []
    else Others(team[..|team| - 1], me) + (if team[|team| - 1] != me then [team[|team| - 1]] else [])
  }

  /** The filter keeps every other player's seats and drops the bot's own. */
  lemma {:induction false} OthersCount(team: seq<Player>, me: Player, p: Player)
    ensures multiset(Others(team, me))[p] == if p == me then 0 else multiset(team)[p]
  {
    if team != [] {
      var init, last := team[..|team| - 1], team[|team| - 1];
      assert team == init + [last];
      OthersCount(init, me, p);
    }
  }

  lemma OthersSnoc(team: seq<Player>, me: Player, i: nat)
    requires i < |team|
    ensures Others(team[..i + 1], me)
         == if team[i] != me then Others(team[..i], me) + [team[i]] else Others(team[..i], me)
  {
    assert team[..i + 1][..i] == team[..i];
    assert Others(team[..i], me) + [] == Others(team[..i], me);
  }

  /** One player further through the team: it joins the others unless it is the bot itself. */
  lemma OthersStep(m: map<Player, int>, team: seq<Player>, me: Player, i: nat, done: seq<Player>)
    requires i < |team| && team[i] in m
    requires done == Others(team[..i], me)
    ensures team[i] in Adjusted(m, done, -100)
    ensures team[i] != me ==> Others(team[..i + 1], me) == done + [team[i]]
    ensures team[i] != me ==> Adjusted(m, done + [team[i]], -100)
                              == Adjusted(m, done, -100)[team[i] := Adjusted(m, done, -100)[team[i]] - 100]
    ensures team[i] == me ==> Others(team[..i + 1], me) == done
  {
    OthersSnoc(team, me, i);
    AdjustedHas(m, done, -100, team[i]);
    AdjustedAppend(m, done, team[i], -100);
  }

  /**
   * The guard of the "rest of the team are spies" block: the bot was told no
   * spy list, it went on the mission, and all but one member sabotaged.
   */
  predicate RestDeduced(spySpies: Option<seq<Player>>, me: Player, team: seq<Player>, sabotaged: int) {
    spySpies.None? && me in team && sabotaged == |team| - 1
  }

  /** A Resistance bot, after onGameRevealed, holds an empty spy list, never None: the block never runs. */
  lemma RestNeverDeducedAfterReveal(me: Player, team: seq<Player>, spies: seq<Player>, sabotaged: int)
    ensures !RestDeduced(Some(spies), me, team, sabotaged)
  {
  }

  /**
   * The three score passes of onMissionComplete, one after the other: -100
   * for the whole team when every member sabotaged, -100 for the players of
   * extra, then -1 or +1 for the team.
   */
  function AfterMission(m: map<Player, int>, team: seq<Player>, sabotaged: int, extra: seq<Player>)
    : (r: map<Player, int>)
    ensures r.Keys == m.Keys
  {
    var whole := if |team| == sabotaged then Adjusted(m, team, -100) else m;
    AdjustedKeys(m, team, -100);
    AdjustedKeys(whole, extra, -100);
    AdjustedKeys(Adjusted(whole, extra, -100), team, if sabotaged != 0 then -1 else 1);
    Adjusted(Adjusted(whole, extra, -100), team, if sabotaged != 0 then -1 else 1)
  }

  /** Each score of AfterMission, player by player. */
  lemma ScoreAfterMission(m: map<Player, int>, team: seq<Player>, sabotaged: int, extra: seq<Player>, p: Player)
    requires p in m
    ensures p in AfterMission(m, team, sabotaged, extra)
    ensures var seats: int := multiset(team)[p];
            AfterMission(m, team, sabotaged, extra)[p]
              == m[p]
                 - (if |team| == sabotaged then 100 * seats else 0)
                 - 100 * multiset(extra)[p]
                 + (if sabotaged != 0 then -seats else seats)
  {
    var whole := if |team| == sabotaged then Adjusted(m, team, -100) else m;
    if |team| == sabotaged {
      AdjustedAt(m, team, -100, p);
    }
    AdjustedAt(whole, extra, -100, p);
    AdjustedAt(Adjusted(whole, extra, -100), team, if sabotaged != 0 then -1 else 1, p);
  }

  /**
   * AfterMission, every score at once: with the "rest of the team" pass on
   * (deduced) or off, the scored players stay the same, and each score moves
   * per seat its player holds on the team.
   */
  lemma MissionScores(m: map<Player, int>, me: Player, team: seq<Player>, sabotaged: int, deduced: bool)
    ensures AfterMission(m, team, sabotaged, if deduced then Others(team, me) else []).Keys == m.Keys
    ensures forall p :: p in m ==>
              var seats: int := multiset(team)[p];
              AfterMission(m, team, sabotaged, if deduced then Others(team, me) else [])[p]
                == m[p]
                   - (if |team| == sabotaged then 100 * seats else 0)
                   - (if deduced && p != me then 100 * seats else 0)
                   + (if sabotaged != 0 then -seats else seats)
  {
    var extra := if deduced then Others(team, me) else [];
    forall p | p in m
      ensures var seats: int := multiset(team)[p];
              AfterMission(m, team, sabotaged, extra)[p]
                == m[p]
                   - (if |team| == sabotaged then 100 * seats else 0)
                   - (if deduced && p != me then 100 * seats else 0)
                   + (if sabotaged != 0 then -seats else seats)
    {
      ScoreAfterMission(m, team, sabotaged, extra, p);
      OthersCount(team, me, p);
    }
  }

  // ---------------------------------------------------------------------
  // The bot
  // ---------------------------------------------------------------------

  /** Opeth: the bot's seat and its beliefs. */
  class Opeth {
    /** The bot's own seat (`self`). */
    const me: Player
    /** spy_spies: the spies revealed to the bot; None until onGameRevealed. */
    var spySpies: Option<seq<Player>>
    /** my_guess: confidence that each player is not a spy. */
    var myGuess: map<Player, int>
    /** their_guess: the same, from what the Resistance can know. */
    var theirGuess: map<Player, int>
    /** spies_for_sure */
    var spiesForSure: seq<Player>

    /** Both belief maps score the same players. */
    ghost predicate Valid()
      reads this
    {
      myGuess.Keys == theirGuess.Keys
    }

    /** The class-level defaults: no spy list, empty beliefs. */
    constructor(me: Player)
      ensures this.me == me && spySpies == None
      ensures myGuess == map[] && theirGuess == map[] && spiesForSure == []
      ensures Valid()
    {
      this.me := me;
      spySpies := None;
      myGuess := map[];
      theirGuess := map[];
      spiesForSure := [];
    }

    /** onGameRevealed(players, spies) */
    method OnGameRevealed(players: seq<Player>, spies: seq<Player>)
      modifies this
      ensures Valid()
      ensures spySpies == Some(spies)
      ensures forall p :: p in myGuess <==> p in players[..Min(|players|, 5)]
      ensures forall p :: p in myGuess ==> myGuess[p] == 0
      ensures theirGuess == myGuess
      ensures spiesForSure == old(spiesForSure)
    {
      spySpies := Some(spies);
      myGuess := ZeroScores(players);
      theirGuess := ZeroScores(players);
    }

    /** onTeamSelected(leader, team): a leader who left itself off the team loses 5 in both maps. */
    method OnTeamSelected(leader: Player, team: seq<Player>)
      requires Valid()
      requires leader !in team ==> leader in myGuess
      modifies this
      ensures Valid()
      ensures myGuess.Keys == old(myGuess).Keys
      ensures forall p :: p in myGuess ==>
                myGuess[p] == old(myGuess)[p] - (if p == leader && leader !in team then 5 else 0)
      ensures forall p :: p in theirGuess ==>
                theirGuess[p] == old(theirGuess)[p] - (if p == leader && leader !in team then 5 else 0)
      ensures spySpies == old(spySpies) && spiesForSure == old(spiesForSure)
    {
      if leader !in team {
        myGuess := myGuess[leader := myGuess[leader] - 5];
        theirGuess := theirGuess[leader := theirGuess[leader] - 5];
      }
    }

    /** Lines 140-144: the whole team sabotaged, so all of it are spies. */
    method PenalizeWholeTeam(team: seq<Player>)
      requires Valid()
      requires forall p :: p in team ==> p in myGuess
      modifies this
      ensures Valid()
      ensures myGuess == Adjusted(old(myGuess), team, -100) && myGuess.Keys == old(myGuess).Keys
      ensures theirGuess == Adjusted(old(theirGuess), team, -100) && theirGuess.Keys == old(theirGuess).Keys
      ensures spiesForSure == old(spiesForSure) + team
      ensures spySpies == old(spySpies)
    {
      var m0, t0, s0 := myGuess, theirGuess, spiesForSure;
      var mine, theirs, sure := m0, t0, s0;
      for i := 0 to |team|
        modifies {}
        invariant mine == Adjusted(m0, team[..i], -100)
        invariant theirs == Adjusted(t0, team[..i], -100)
        invariant sure == s0 + team[..i]
      {
        var spy := team[i];
        assert spy in team;
        AdjustedSnoc(m0, team, -100, i);
        AdjustedSnoc(t0, team, -100, i);
        mine := mine[spy := mine[spy] - 100];
        theirs := theirs[spy := theirs[spy] - 100];
        sure := sure + [spy];
        assert team[..i + 1] == team[..i] + [spy];
      }
      assert team[..|team|] == team;
      AdjustedKeys(m0, team, -100);
      AdjustedKeys(t0, team, -100);
      myGuess, theirGuess, spiesForSure := mine, theirs, sure;
    }

    /** Lines 150-154: the other team members are spies (my_guess only). */
    method PenalizeOthers(team: seq<Player>)
      requires Valid()
      requires forall p :: p in team ==> p in myGuess
      modifies this
      ensures Valid()
      ensures myGuess == Adjusted(old(myGuess), Others(team, me), -100) && myGuess.Keys == old(myGuess).Keys
      ensures theirGuess == old(theirGuess)
      ensures spiesForSure == old(spiesForSure) + Others(team, me)
      ensures spySpies == old(spySpies)
    {
      var m0, s0 := myGuess, spiesForSure;
      var mine, sure := m0, s0;
      ghost var done: seq<Player> := [];
      for i := 0 to |team|
        modifies {}
        invariant done == Others(team[..i], me)
        invariant mine == Adjusted(m0, done, -100)
        invariant sure == s0 + done
      {
        var spy := team[i];
        OthersStep(m0, team, me, i, done);
        if spy != me {
          mine := mine[spy := mine[spy] - 100];
          sure := sure + [spy];
          done := done + [spy];
        }
      }
      assert team[..|team|] == team;
      AdjustedKeys(m0, done, -100);
      myGuess, spiesForSure := mine, sure;
    }

    /** Lines 159-165: every team member moves by -1 after a sabotage, by +1 otherwise, in both maps. */
    method ScoreTeam(team: seq<Player>, sabotaged: int)
      requires Valid()
      requires forall p :: p in team ==> p in myGuess
      modifies this
      ensures Valid()
      ensures myGuess == Adjusted(old(myGuess), team, if sabotaged != 0 then -1 else 1)
      ensures theirGuess == Adjusted(old(theirGuess), team, if sabotaged != 0 then -1 else 1)
      ensures spiesForSure == old(spiesForSure) && spySpies == old(spySpies)
    {
      var m0, t0 := myGuess, theirGuess;
      var mine, theirs := m0, t0;
      ghost var d := if sabotaged != 0 then -1 else 1;
      for i := 0 to |team|
        modifies {}
        invariant mine == Adjusted(m0, team[..i], d)
        invariant theirs == Adjusted(t0, team[..i], d)
      {
        var player := team[i];
        assert player in team;
        AdjustedSnoc(m0, team, d, i);
        AdjustedSnoc(t0, team, d, i);
        if sabotaged != 0 {
          mine := mine[player := mine[player] - 1];
          theirs := theirs[player := theirs[player] - 1];
        } else {
          mine := mine[player := mine[player] + 1];
          theirs := theirs[player := theirs[player] + 1];
        }
      }
      assert team[..|team|] == team;
      AdjustedKeys(m0, team, d);
      AdjustedKeys(t0, team, d);
      myGuess, theirGuess := mine, theirs;
    }

    /**
     * onMissionComplete(sabotaged), for the game's current team: both maps
     * go through the three score passes of AfterMission (my_guess with the
     * "rest of the team" pass when its guard holds), and spies_for_sure grows
     * by the players those passes name; MissionScores says what this does to
     * each score.
     */
    method OnMissionComplete(team: seq<Player>, sabotaged: int)
      requires Valid()
      requires forall p :: p in team ==> p in myGuess
      modifies this
      ensures Valid()
      ensures myGuess.Keys == old(myGuess).Keys && theirGuess.Keys == old(theirGuess).Keys
      ensures myGuess == AfterMission(old(myGuess), team, sabotaged,
                           if RestDeduced(old(spySpies), me, team, sabotaged) then Others(team, me) else [])
      ensures theirGuess == AfterMission(old(theirGuess), team, sabotaged, [])
      ensures spiesForSure == old(spiesForSure)
                + (if |team| == sabotaged then team else [])
                + (if RestDeduced(old(spySpies), me, team, sabotaged) then Others(team, me) else [])
      ensures spySpies == old(spySpies)
      ensures old(spySpies).Some? ==>
                && myGuess == AfterMission(old(myGuess), team, sabotaged, [])
                && spiesForSure == old(spiesForSure) + (if |team| == sabotaged then team else [])
    {
      ghost var m0, t0, s0 := myGuess, theirGuess, spiesForSure;
      ghost var deduced := RestDeduced(spySpies, me, team, sabotaged);
      ghost var extra := if deduced then Others(team, me) else [];
      ghost var whole := if |team| == sabotaged then Adjusted(m0, team, -100) else m0;
      ghost var theirWhole := if |team| == sabotaged then Adjusted(t0, team, -100) else t0;
      ghost var sureWhole := s0 + (if |team| == sabotaged then team else []);
      if |team| == sabotaged {
        PenalizeWholeTeam(team);
      } else {
        assert sureWhole == s0;
      }
      assert myGuess == whole && theirGuess == theirWhole && spiesForSure == sureWhole;
      if spySpies.None? && me in team && sabotaged == |team| - 1 {
        PenalizeOthers(team);
      } else {
        assert myGuess == Adjusted(whole, [], -100);
        assert sureWhole + extra == sureWhole;
      }
      assert spiesForSure == sureWhole + extra;
      assert myGuess == Adjusted(whole, extra, -100);
      assert theirGuess == Adjusted(theirWhole, [], -100);
      ScoreTeam(team, sabotaged);
      assert myGuess == AfterMission(m0, team, sabotaged, extra);
      assert theirGuess == AfterMission(t0, team, sabotaged, []);
    }
  }
}
