/**
 * The process-wide `statistics` table of competition.py: bot name to a
 * CompetitionStatistics record of seven counters. Every update the source
 * makes to it is a `setdefault` on a name, possibly followed by one
 * `sample` of one counter; this module states such updates as events
 * (Obs) folded over the table, and proves once what a fold does.
 */
module CompetitionTable {
  import opened Util

  /** CompetitionStatistics: the seven counters kept per bot name. */
  datatype CompetitionStatistics = CompetitionStatistics(
    resWins: Variable,
    spyWins: Variable,
    votesRes: Variable,
    votesSpy: Variable,
    spyVoted: Variable,
    spySelected: Variable,
    selections: Variable)
  {
    /**
     * total(), as written: its sample count adds spyWins.total, not
     * spyWins.samples. With 0/1 samples it stays a valid ratio, but counts
     * every game played only when no spy game was lost.
     */
    function Total(): (r: Variable)
      ensures resWins.Bounded() && spyWins.Bounded() ==>
                r.Bounded() && r.samples <= resWins.samples + spyWins.samples
      ensures r.samples == resWins.samples + spyWins.samples <==> spyWins.total == spyWins.samples
    {
      Variable(resWins.total + spyWins.total, resWins.samples + spyWins.total)
    }

    /** total() as evidently intended: the wins over every game played, in either role. */
    function TotalCorrected(): (r: Variable)
      ensures r.total == Total().total
      ensures r.samples == Total().samples + (spyWins.samples - spyWins.total)
      ensures resWins.Bounded() && spyWins.Bounded() ==> r.Bounded()
    {
      Variable(resWins.total + spyWins.total, resWins.samples + spyWins.samples)
    }
  }

  /** CompetitionStatistics(): every counter empty. */
  const Fresh: CompetitionStatistics :=
    CompetitionStatistics(Empty, Empty, Empty, Empty, Empty, Empty, Empty)

  /** A new record starts each of its seven counters with nothing sampled. */
  lemma FreshIsEmpty()
    ensures forall c :: Get(Fresh, c) == Empty
  {
  }

  /** Names for the seven fields. */
  datatype Counter = ResWins | SpyWins | VotesRes | VotesSpy | SpyVoted | SpySelected | Selections

  function Get(s: CompetitionStatistics, c: Counter): (r: Variable) {
    match c
    case ResWins => s.resWins
    case SpyWins => s.spyWins
    case VotesRes => s.votesRes
    case VotesSpy => s.votesSpy
    case SpyVoted => s.spyVoted
    case SpySelected => s.spySelected
    case Selections => s.selections
  }

  /** `s.<c>.sample(v)`: counter c takes one sample, the other six stay as they were. */
  function Bump(s: CompetitionStatistics, c: Counter, v: int): (r: CompetitionStatistics)
    ensures forall c' :: Get(r, c') == if c' == c then Get(s, c).Sample(v) else Get(s, c')
  {
    match c
    case ResWins => s.(resWins := s.resWins.Sample(v))
    case SpyWins => s.(spyWins := s.spyWins.Sample(v))
    case VotesRes => s.(votesRes := s.votesRes.Sample(v))
    case VotesSpy => s.(votesSpy := s.votesSpy.Sample(v))
    case SpyVoted => s.(spyVoted := s.spyVoted.Sample(v))
    case SpySelected => s.(spySelected := s.spySelected.Sample(v))
    case Selections => s.(selections := s.selections.Sample(v))
  }

  type Table = map<string, CompetitionStatistics>

  /**
   * One update of the table: `setdefault(name, CompetitionStatistics())` alone
   * (Seen), or followed by `statistics[name].<counter>.sample(value)` (Sampled).
   */
  datatype Obs = Seen(name: string) | Sampled(name: string, counter: Counter, value: int)

  /** statistics.setdefault(name, CompetitionStatistics()) */
  function SetDefault(t: Table, name: string): (r: Table)
    ensures r.Keys == t.Keys + {name}
    ensures forall n :: n in t ==> r[n] == t[n]
    ensures name !in t ==> r[name] == Fresh
  {
    if name in t then t else t[name := Fresh]
  }

  /** One update: only the entry of o.name changes, and only in the counter o samples. */
  function Observe(t: Table, o: Obs): (r: Table)
    ensures r.Keys == t.Keys + {o.name}
    ensures forall n :: n in t && n != o.name ==> r[n] == t[n]
    ensures o.Seen? ==> r[o.name] == Lookup(t, o.name)
    ensures o.Sampled? ==> r[o.name] == Bump(Lookup(t, o.name), o.counter, o.value)
  {
    match o
    case Seen(n) => SetDefault(t, n)
    case Sampled(n, c, v) =>
      var t' := SetDefault(t, n);
      t'[n := Bump(t'[n], c, v)]
  }

  /** The table after the updates os, in order. */
  function Apply(t: Table, os: seq<Obs>): (r: Table) {
    if os == [] then t else Observe(Apply(t, os[..|os| - 1]), os[|os| - 1])
  }

  /** The names the updates os touch. */
  function Names(os: seq<Obs>): (r: set<string>) {
    set o | o in os :: o.name
  }

  /** The record a name has, or the one setdefault would give it. */
  function Lookup(t: Table, n: string): (r: CompetitionStatistics) {
    if n in t then t[n] else Fresh
  }

  /** How many of os sample counter c of name n. */
  function SampleCount(os: seq<Obs>, n: string, c: Counter): (r: nat) {
    if os == [] then 0
    else
      var o := os[|os| - 1];
      SampleCount(os[..|os| - 1], n, c) + (if o.Sampled? && o.name == n && o.counter == c then 1 else 0)
  }

  /** The sum of the values os sample into counter c of name n. */
  function ValueSum(os: seq<Obs>, n: string, c: Counter): (r: int) {
    if os == [] then 0
    else
      var o := os[|os| - 1];
      ValueSum(os[..|os| - 1], n, c) + (if o.Sampled? && o.name == n && o.counter == c then o.value else 0)
  }

  /** after is before with the given number of samples and the given amount added. */
  predicate Moved(before: Variable, after: Variable, samples: int, amount: int) {
    after == Variable(before.total + amount, before.samples + samples)
  }

  /** Every value sampled is int(bool). */
  predicate ZeroOne(os: seq<Obs>) {
    forall i :: 0 <= i < |os| && os[i].Sampled? ==> 0 <= os[i].value <= 1
  }

  /** Every counter of every entry has 0 <= total <= samples. */
  predicate Bounded(t: Table) {
    forall n, c :: n in t ==> Get(t[n], c).Bounded()
  }

  /** Applying updates creates an entry for every name touched, and removes none. */
  lemma {:induction false} ApplyKeys(t: Table, os: seq<Obs>)
    ensures Apply(t, os).Keys == t.Keys + Names(os)
  {
    if os != [] {
      var init, o := os[..|os| - 1], os[|os| - 1];
      ApplyKeys(t, init);
      assert Names(os) == Names(init) + {o.name} by {
        assert os == init + [o];
      }
    }
  }

  /**
   * What a fold does to one counter of one name: it gains exactly the
   * samples addressed to it, and nothing else.
   */
  lemma {:induction false} ApplyAt(t: Table, os: seq<Obs>, n: string, c: Counter)
    ensures Moved(Get(Lookup(t, n), c), Get(Lookup(Apply(t, os), n), c),
                  SampleCount(os, n, c), ValueSum(os, n, c))
  {
    if os != [] {
      var init, o := os[..|os| - 1], os[|os| - 1];
      ApplyAt(t, init, n, c);
      ObserveAt(Apply(t, init), o, n, c);
    }
  }

  /** ApplyAt for one update. */
  lemma ObserveAt(u: Table, o: Obs, n: string, c: Counter)
    ensures Moved(Get(Lookup(u, n), c), Get(Lookup(Observe(u, o), n), c),
                  if o.Sampled? && o.name == n && o.counter == c then 1 else 0,
                  if o.Sampled? && o.name == n && o.counter == c then o.value else 0)
  {
    assert Lookup(SetDefault(u, o.name), n) == Lookup(u, n);
  }

  /** Applying one more update is observing it on the table so far. */
  lemma ApplySnoc(t: Table, os: seq<Obs>, o: Obs)
    ensures Apply(t, os + [o]) == Observe(Apply(t, os), o)
  {
    assert (os + [o])[..|os|] == os;
  }

  /** Applying two batches of updates is applying the second to the result of the first. */
  lemma {:induction false} ApplyConcat(t: Table, a: seq<Obs>, b: seq<Obs>)
    ensures Apply(t, a + b) == Apply(Apply(t, a), b)
  {
    if b == [] {
      assert a + b == a;
    } else {
      var init, o := b[..|b| - 1], b[|b| - 1];
      assert b == init + [o] && a + b == (a + init) + [o];
      ApplyConcat(t, a, init);
      ApplySnoc(t, a + init, o);
      ApplySnoc(Apply(t, a), init, o);
    }
  }

  /** Counts over a concatenation add up. */
  lemma {:induction false} CountsConcat(a: seq<Obs>, b: seq<Obs>, n: string, c: Counter)
    ensures SampleCount(a + b, n, c) == SampleCount(a, n, c) + SampleCount(b, n, c)
    ensures ValueSum(a + b, n, c) == ValueSum(a, n, c) + ValueSum(b, n, c)
  {
    if b != [] {
      var init := b[..|b| - 1];
      assert (a + b)[..|a + b| - 1] == a + init;
      CountsConcat(a, init, n, c);
    } else {
      assert a + b == a;
    }
  }

  /** With 0/1 values, the amount added is between 0 and the number of samples. */
  lemma {:induction false} ZeroOneSums(os: seq<Obs>, n: string, c: Counter)
    requires ZeroOne(os)
    ensures 0 <= ValueSum(os, n, c) <= SampleCount(os, n, c)
  {
    if os != [] {
      var init := os[..|os| - 1];
      assert ZeroOne(init) by {
        forall i | 0 <= i < |init| && init[i].Sampled? ensures 0 <= init[i].value <= 1 {
          assert init[i] == os[i];
        }
      }
      ZeroOneSums(init, n, c);
    }
  }

  /** Folding int(bool) samples keeps 0 <= total <= samples for every counter. */
  lemma ApplyKeepsBounded(t: Table, os: seq<Obs>)
    requires Bounded(t) && ZeroOne(os)
    ensures Bounded(Apply(t, os))
  {
    ApplyKeys(t, os);
    forall n, c | n in Apply(t, os) ensures Get(Apply(t, os)[n], c).Bounded() {
      ApplyAt(t, os, n, c);
      ZeroOneSums(os, n, c);
    }
  }

  /**
   * Entries are only ever created or updated: no name is removed, and no
   * counter loses samples or (with 0/1 values) total.
   */
  lemma OnlyGrows(t: Table, os: seq<Obs>, n: string, c: Counter)
    requires ZeroOne(os) && n in t
    ensures n in Apply(t, os)
    ensures Get(Apply(t, os)[n], c).samples >= Get(t[n], c).samples
    ensures Get(Apply(t, os)[n], c).total >= Get(t[n], c).total
  {
    ApplyKeys(t, os);
    ApplyAt(t, os, n, c);
    ZeroOneSums(os, n, c);
  }

  /** The global `statistics` dict: one table, shared by every game of the run. */
  class StatisticsTable {
    var entries: Table

    ghost predicate Valid()
      reads this
    {
      Bounded(entries)
    }

    /** `statistics = {}` */
    constructor()
      ensures entries == map[] && Valid()
    {
      entries := map[];
    }

    /** `statistics.setdefault(name, CompetitionStatistics())` */
    method Touch(name: string)
      requires Valid()
      modifies this
      ensures Valid()
      ensures entries == Observe(old(entries), Seen(name))
    {
      if name !in entries {
        entries := entries[name := Fresh];
      }
    }

    /** `statistics.setdefault(name, ...)` followed by `statistics[name].<c>.sample(v)` */
    method Record(name: string, c: Counter, v: int)
      requires Valid() && 0 <= v <= 1
      modifies this
      ensures Valid()
      ensures entries == Observe(old(entries), Sampled(name, c, v))
    {
      Touch(name);
      var s := entries[name];
      entries := entries[name := Bump(s, c, v)];
    }
  }
}
