# Resistance competition statistics and the Opeth bot, in Dafny

This project models two files of a Python framework for bot tournaments of
the card game *The Resistance*.

**competition.py.** A `CompetitionRound` is a game whose hooks fold what
happens at the table into one process-wide `statistics` dictionary. That
dictionary maps a bot name to seven running counters (`CompetitionStatistics`):
wins as Resistance, wins as spy, votes for spy-free teams, votes against teams
with spies, votes spies received while on a team, selections of spies and
team selections. A `CompetitionRunner` plays the rounds; while a round runs,
its hooks write to the table, and after it the runner folds the game's
outcome into the same table.

Every update these hooks make is a `setdefault` on a name, possibly followed
by one `sample` of one counter. The model writes each update as an event
(`CompetitionTable.Obs`). It writes the table after a hook as a fold of that
hook's events (`CompetitionTable.Apply`), and proves once what such a fold
does to each counter of each name (`ApplyAt`, `ApplyKeys`).

- The classes `StatisticsTable`, `CompetitionRound` and `CompetitionRunner`
  update the table in place. Each method is proved equal to the fold of the
  events its hook emits.
- The lemmas next to them say what those events do: which counters move, by
  how many samples and by how much total, and that nothing else changes.
- `total()` is modelled as written, and so is the sum it was evidently meant
  to be; see Findings.

**opeth.py.** Opeth is a bot that plays against the usual conventions.

- Its decisions are modelled as functions of what the game tells it. In
  `sabotage`, the leader holds back, a spy under a spy leader sabotages, and
  otherwise the higher index sabotages. In `select`, a spy picks every spy
  and then outsiders.
- Its beliefs are the fields of a class that its callbacks update in place.
  These are two confidence maps (`my_guess` and `their_guess`) and the
  `spies_for_sure` list. The score passes of `onMissionComplete` are proved
  equal to `OpethBot.AfterMission`, and `MissionScores` states how each
  score moves per seat its player holds.

Random draws, the game engine and `util.Variable` are inputs to the model;
see Left out.

Some of opeth.py does not parse. `new dict(...)` appears on lines 51-52, and
the `if` on line 152 has no colon. The model gives those lines their evident
meaning:

- lines 51-52 are a dict of the first five players, each with score 0;
- the block under line 152 runs for every team member other than the bot.

The guard on line 150 is modelled as written: `spy_spies is None`.
`onGameRevealed` stores the spy list it is given, and a Resistance bot is
given an empty list, not None. So after that callback the "rest of the team"
block never runs (`RestNeverDeducedAfterReveal`).

## Model

| member | source | states |
|---|---|---|
| CompetitionTable.CompetitionStatistics.Total | competition.py:21-22 | total() as written: with 0/1 samples it is a valid ratio whose sample count never exceeds the games played, and equals them exactly when no spy game was lost |
| CompetitionTable.CompetitionStatistics.TotalCorrected | competition.py:21-22 | the corrected total(): the same wins, with the lost spy games added to the sample count; a valid ratio with 0/1 samples |
| CompetitionTable.Observe | competition.py:45-47 | one `setdefault` (+ `sample`) update: adds at most its name, changes no other entry, and bumps only the sampled counter of a record that exists or is fresh |
| CompetitionTable.StatisticsTable.constructor | competition.py:8 | the table starts empty, every counter bounded |
| CompetitionTable.FreshIsEmpty | competition.py:12-19 | a new `CompetitionStatistics()` has each of its seven counters empty |
| CompetitionTable.SetDefault | competition.py:34 | adds exactly the name, keeps every existing record, and gives a new name seven empty counters |
| CompetitionTable.StatisticsTable.Touch | competition.py:59 | the table becomes the fold of one `setdefault` event; counters stay bounded |
| CompetitionTable.StatisticsTable.Record | competition.py:45-47 | the table becomes the fold of one `setdefault` + `sample` event; counters stay bounded for 0/1 values |
| CompetitionTable.ApplyKeys | competition.py:34 | a fold creates an entry for every name it touches and removes none |
| CompetitionTable.ApplyAt | competition.py:45-47 | under a fold, each counter of each name gains exactly the samples addressed to it and their sum, and nothing else |
| CompetitionTable.ApplyConcat | competition.py:85-97 | folding two batches of events is folding the second after the first |
| CompetitionTable.ApplyKeepsBounded | competition.py:38-41 | folding int(bool) samples keeps 0 <= total <= samples in every counter |
| CompetitionTable.OnlyGrows | competition.py:34-35 | with 0/1 samples, no entry disappears and no counter loses samples or total |
| Competition.SpiesIn | competition.py:32 | the spies on the team are exactly the team members with the spy role |
| Competition.HooksSampleZeroOne | competition.py:27-97 | every value the two hooks and the outcome fold sample is 0 or 1 |
| Competition.SpyVoteIgnored | competition.py:29-30 | a spy's vote leaves the whole table unchanged |
| Competition.ResistanceVote | competition.py:27-47 | a Resistance vote moves, for the voter, votesRes by int(vote) on a spy-free team or votesSpy by int(not vote) otherwise; each name gains one spyVoted sample of int(vote) per spy seat it holds on the team; the other four counters are unchanged |
| Competition.ResistanceVoteKeys | competition.py:34-45 | after a Resistance vote, the voter and every spy on the team have an entry, and no entry is removed |
| Competition.SpySelectionIgnored | competition.py:51-52 | a spy's selection leaves the whole table unchanged |
| Competition.ResistanceSelection | competition.py:49-62 | a Resistance leader's selection adds one selections sample to the leader, 1 exactly when the team is spy-free; each name gains one spySelected sample per spy seat it holds in the game, counting 1 per seat on the team; the other five counters are unchanged |
| Competition.ResistanceSelectionKeys | competition.py:55-59 | after a Resistance selection, the leader and every bot of the game have an entry |
| Competition.GameFold | competition.py:90-97 | the outcome fold moves resWins by the name's Resistance seats (their total only if the Resistance won) and spyWins by its spy seats (their total only if the spies won), and nothing else |
| Competition.GameAddsOneSamplePerSeat | competition.py:90-97 | over both win counters, a game adds one sample per seat the name held |
| Competition.TotalAfterGame | competition.py:21-22 | total() as written: when the Resistance wins, both its total and its samples grow by the name's Resistance seats; when the spies win, its total grows by the spy seats and its samples by every seat |
| Competition.TotalMissesLostSpyGames | competition.py:21-22 | total() as written: a game where the name held only spy seats and the spies lost leaves total() unchanged, while the games played grew |
| Competition.GameCountedOnce | competition.py:21-22 | the corrected total() counts every game played, once per seat, in either role |
| Competition.PickPlayersForRound | competition.py:72-77 | five picks, each a competitor; the IndexError exactly when there is no competitor |
| Competition.AnyRosterCanBeDrawn | competition.py:76-77 | every roster of five competitors, repeats included, is a possible draw |
| Competition.HooksLeaveWins | competition.py:27-62 | no hook call ever samples resWins or spyWins |
| Competition.RoundWins | competition.py:85-97 | a whole iteration of main, hooks included, moves a name's resWins and spyWins exactly as the outcome fold alone: one sample per seat in that role, scoring 1 when that role won |
| Competition.RoundCountedOnce | competition.py:89-97 | over a whole iteration of main, the corrected total() gains one sample per seat the name held |
| Competition.CompetitionRound.constructor | competition.py:102 | the game's seated bots, its outcome, the hook calls it makes and the shared table, as given |
| Competition.CompetitionRound.RunHooks | competition.py:105 | `g.run()` on the table: it becomes the fold of the events of the game's hook calls, in order; counters stay bounded |
| Competition.CompetitionRound.OnPlayerVoted | competition.py:27-47 | the table becomes the fold of the hook's events (see ResistanceVote); a spy's vote changes nothing |
| Competition.CompetitionRound.OnPlayerSelected | competition.py:49-62 | the table becomes the fold of the hook's events (see ResistanceSelection); a spy's selection changes nothing |
| Competition.CompetitionRound.FoldOutcome | competition.py:90-97 | the table becomes the fold of one win/loss sample per seated bot (see GameFold) |
| Competition.CompetitionRunner.constructor | competition.py:67-70 | competitors as given, rounds as given or 10000 by default, no game in progress |
| Competition.CompetitionRunner.Iterations | competition.py:85 | the indices `range(1, rounds + 1)` yields are exactly 1..r: rounds of them, none for a negative count |
| Competition.CompetitionRunner.Play | competition.py:101-106 | the game is appended to `games`, run (its hook calls fold into the shared table, in order) and returned |
| Competition.CompetitionRunner.Run | competition.py:85-99 | after all iterations, the table is the fold, round by round, of that round's hook calls and then its outcome; `games` holds what it held before |
| Lists.RemoveFirst | opeth.py:124 | `list.remove` drops the first occurrence of the element and keeps the rest in order |
| OpethBot.SpiesOnTeam | opeth.py:111 | the spies on the team are the team members in the spy list |
| OpethBot.SpiesOnTeamCounts | opeth.py:111 | the comprehension keeps each spy seat of the team as often as the team holds it, and nothing else |
| OpethBot.LoneSpySabotages | opeth.py:111-131 | on a team seating each player once, with at most one spy on it, `sabotage` returns True |
| OpethBot.TeamPairSabotagesOnce | opeth.py:111-131 | on a team seating each player once, with exactly two spies of different indices on it, exactly one of them sabotages, whoever leads |
| OpethBot.Sabotage | opeth.py:106-131 | at most one spy on the team: sabotage; the ValueError of `remove` exactly when there are several, the bot does not lead, and neither the leader nor the bot is among them |
| OpethBot.LeaderHoldsBack | opeth.py:115-117 | with several spies on the team, the leader does not sabotage |
| OpethBot.FollowsSpyLeader | opeth.py:121-123 | with several spies on the team and a spy leader, every other spy sabotages |
| OpethBot.PairMember | opeth.py:111-131 | with exactly two spies a, b on the team: a leader does not sabotage, a spy under the other spy sabotages, otherwise the higher index sabotages |
| OpethBot.PairSabotagesOnce | opeth.py:124-130 | with exactly two spies on the team, whoever leads, exactly one of them sabotages |
| OpethBot.Select | opeth.py:63-75 | the ValueError exactly when the sample size is negative or exceeds the population (the player list for the Resistance, the set of non-spies for a spy); the Resistance picks count entries of the player list, none more often than the list holds it; a spy picks the spy list, then count - 2 players not in it |
| OpethBot.ResistanceTeamIsDistinct | opeth.py:69-70 | when the player list holds each seat once, the Resistance picks count distinct players |
| OpethBot.SpyTeamIsValid | opeth.py:72-75 | a spy told of two spies picks exactly count distinct players, both spies among them |
| OpethBot.ZeroScores | opeth.py:51-52 | exactly the first five players get a score, each 0 |
| OpethBot.AllScoredUpToFive | opeth.py:51-52 | with at most five players, every player is scored 0 |
| OpethBot.SixthUnscored | opeth.py:51-52 | a sixth distinct player gets no score |
| OpethBot.Opeth.constructor | opeth.py:25-41 | no spy list, empty beliefs |
| OpethBot.Opeth.OnGameRevealed | opeth.py:43-52 | the spy list is stored; both maps score exactly the first five players at 0 |
| OpethBot.Opeth.OnTeamSelected | opeth.py:77-91 | a leader who left itself off the team loses 5 in both maps; every other score is unchanged |
| OpethBot.AdjustedKeys | opeth.py:159-165 | the score passes never add or drop a player |
| OpethBot.AdjustedAt | opeth.py:141-143 | a score pass moves each score by its delta once per occurrence of the player in the team |
| OpethBot.OthersCount | opeth.py:151-153 | the "other members" filter keeps every other player's seats and drops the bot's own |
| OpethBot.Opeth.PenalizeWholeTeam | opeth.py:140-144 | every team member loses 100 per seat in both maps and joins spies_for_sure |
| OpethBot.Opeth.PenalizeOthers | opeth.py:150-154 | every team member but the bot loses 100 in my_guess and joins spies_for_sure |
| OpethBot.Opeth.ScoreTeam | opeth.py:159-165 | every team member moves by -1 per seat after a sabotage, +1 per seat otherwise, in both maps |
| OpethBot.Opeth.OnMissionComplete | opeth.py:133-168 | both maps go through the three score passes in order; spies_for_sure grows by the whole team and/or the other members, as the guards decide; the scored players stay the same; once a spy list is stored, the "rest of the team" pass never runs |
| OpethBot.AfterMission | opeth.py:139-165 | the three score passes of onMissionComplete in order; no player is added or dropped |
| OpethBot.ScoreAfterMission | opeth.py:139-165 | each score after the three passes, from the player's seats on the team and in the extra list |
| OpethBot.MissionScores | opeth.py:139-165 | after a mission, a score moves per seat by -100 if the whole team sabotaged, by a further -100 in my_guess for the other members when the rest are deduced to be spies, and by -1 or +1; unscored players stay unscored |
| OpethBot.RestNeverDeducedAfterReveal | opeth.py:150 | once a spy list (even an empty one) is stored, the "rest of the team" guard is false |

## Left out

- `CompetitionRunner.show` (competition.py:108-125) and the `__main__` block (competition.py:127-157): printing, sorting by estimate, command-line parsing and module loading are I/O.
- The progress dots on stderr (competition.py:86-87) are I/O.
- `onCompetitionStarting` and `onCompetitionFinished` (competition.py:80-83, 111-112) are calls into bot classes that are not part of this model.
- `Game.run` (game.py) is not part of this model. A round arrives with its seated bots, their roles, its outcome and the hook calls `Game.run` makes (`CompetitionRound.calls`, in order) already fixed; `RunHooks` makes those calls, and `Run` takes the played rounds as a parameter.
- The `channel` argument of `play` (competition.py:101-103) is only stored on the game and is not modelled.
- Competition.CompetitionRunner.Run: it does not state that each round's roster came from `pickPlayersForRound`. The roster is fixed by the round given; PickPlayersForRound and AnyRosterCanBeDrawn state the draw. Nor does it model the IndexError `main` raises in its first iteration when there are no competitors and at least one round (competition.py:77, 89); PickPlayersForRound states that error on its own.
- `util.Variable` (util.py) is not part of this model. It is assumed to be a (total, samples) pair that `sample(v)` moves by (v, 1); `estimate()` and its printing are left out.
- `random.choice` and `random.sample` are parameters: the index list `draws` and the sample `draw`.
- `statistics` is a module-level global, and Opeth's `spy_spies`, `my_guess`, `their_guess` and `spies_for_sure` are class attributes shared by every instance until first assigned. The model's one `StatisticsTable` object stands for the global: `Run` requires every round to share the runner's table, and each bot has its own fields. So the aliasing of `spies_for_sure`, which the source only appends to and never reassigns, is not captured.
- The log calls (`self.log.info`, opeth.py:74, 116, 122, 129) are I/O.
- `onMissionAttempt`, `vote`, `onVoteComplete` and `onGameComplete` (opeth.py:54-61, 93-104, 170-175) do nothing, or always return True, and are not modelled.
- OpethBot.Opeth.OnTeamSelected: the KeyError for a leader without a score is a precondition (the leader is scored). So are the KeyErrors for an unscored team member in OnMissionComplete and its passes.
- OpethBot.Sabotage: the TypeError when `spy_spies` is still None (a Resistance bot is never asked to sabotage) is left out; the spy list is a parameter.
- OpethBot.Select: the model draws from its `players` parameter, which stands for `self.game.players`, the list the source draws from. A draw from that list is described by its contents (count entries, none more often than the list holds it), not by the positions drawn or their order.
- Players are values compared by equality; Python's `is not` on line 152 is modelled as inequality.

## Findings

| source | as written | input that shows it | evidently intended | confidence | as-written member | corrected member |
|---|---|---|---|---|---|---|
| competition.py:22 | `total()` adds `spyWins.total` to the sample count: a game counts as played in the spy role only when the spies won | a name that sat only as spy in one game the spies lost: `total()` is unchanged, so the game is not counted | `resWins.samples + spyWins.samples`: every game played, in either role | medium, not executed | Competition.TotalMissesLostSpyGames | Competition.GameCountedOnce |
