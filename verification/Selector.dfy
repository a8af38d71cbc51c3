/** Choosing the questions of a new room (api/internal/game/selector.go). */
module Selector {
  import opened Common
  import opened Scoring
  import opened Shuffling

  datatype QuestionRef = QuestionRef(id: QuestionId, site: int, level: int)
  datatype SiteLevel = SiteLevel(site: int, level: int)

  /** Difficulty of the three questions per site. */
  function Composition(jenjang: Jenjang): Option<seq<seq<int>>> {
    match jenjang
    case SD => Some([[1, 1, 2], [1, 1, 2], [1, 2, 2], [1, 2, 2], [1, 2, 3]])
    case SMP => Some([[1, 1, 2], [1, 2, 2], [1, 2, 3], [1, 2, 3], [1, 2, 3]])
    case SMA => Some([[1, 2, 2], [1, 2, 3], [1, 2, 3], [2, 2, 3], [2, 3, 3]])
    case Unknown(_) => None
  }

  /** Of the three levels of a site, a short session asks the outer two. */
  function LevelsToAsk(levels: seq<int>, shortSession: bool): seq<int>
    requires |levels| == 3
  {
    if shortSession then [levels[0], levels[2]] else levels
  }

  /** What the composition prescribes, question by question, from a stage on. */
  function PlanFrom(cells: seq<seq<int>>, shortSession: bool, stage: nat): seq<SiteLevel>
    requires stage <= |cells| && forall levels :: levels in cells ==> |levels| == 3
    decreases |cells| - stage
  {
    if stage == |cells| then []
    else Cells(stage + 1, LevelsToAsk(cells[stage], shortSession)) + PlanFrom(cells, shortSession, stage + 1)
  }

  function Cells(site: int, levels: seq<int>): seq<SiteLevel> {
    seq(|levels|, i requires 0 <= i < |levels| => SiteLevel(site, levels[i]))
  }

  function Plan(jenjang: Jenjang, shortSession: bool): seq<SiteLevel>
    requires Composition(jenjang).Some?
  {
    PlanFrom(Composition(jenjang).value, shortSession, 0)
  }

  // ---------------------------------------------------------------- supply and demand

  function Demand(plan: seq<SiteLevel>, key: SiteLevel): nat {
    if plan == [] then 0
    else Demand(plan[..|plan| - 1], key) + if plan[|plan| - 1] == key then 1 else 0
  }

  /** The pool's ids for one site and level, in pool order. */
  function Supply(pool: seq<QuestionRef>, key: SiteLevel): seq<QuestionId> {
    if pool == [] then []
    else
      var q := pool[|pool| - 1];
      Supply(pool[..|pool| - 1], key) + if SiteLevel(q.site, q.level) == key then [q.id] else []
  }

  ghost predicate DistinctIds(pool: seq<QuestionRef>) {
    forall i, j :: 0 <= i < j < |pool| ==> pool[i].id != pool[j].id
  }

  ghost predicate InPool(pool: seq<QuestionRef>, id: QuestionId, key: SiteLevel) {
    QuestionRef(id, key.site, key.level) in pool
  }

  lemma {:induction false} SupplyIsFromPool(pool: seq<QuestionRef>, key: SiteLevel)
    ensures forall id :: id in Supply(pool, key) <==> InPool(pool, id, key)
    ensures DistinctIds(pool) ==> Distinct(Supply(pool, key))
  {
    if pool != [] {
      var init, q := pool[..|pool| - 1], pool[|pool| - 1];
      SupplyIsFromPool(init, key);
      assert pool == init + [q];
      if DistinctIds(pool) { FreshId(pool, key); }
    }
  }

  lemma FreshId(pool: seq<QuestionRef>, key: SiteLevel)
    requires pool != [] && DistinctIds(pool)
    ensures !InPool(pool[..|pool| - 1], pool[|pool| - 1].id, key)
  {
    assert forall q :: q in pool[..|pool| - 1] ==> q.id != pool[|pool| - 1].id;
  }

  lemma {:induction false} DemandGrows(plan: seq<SiteLevel>, n: nat, key: SiteLevel)
    requires n <= |plan|
    ensures Demand(plan[..n], key) <= Demand(plan, key)
  {
    if n < |plan| {
      DemandGrows(plan[..|plan| - 1], n, key);
      assert plan[..|plan| - 1][..n] == plan[..n];
    } else {
      assert plan[..n] == plan;
    }
  }

  lemma DemandStep(plan: seq<SiteLevel>, n: nat, key: SiteLevel)
    requires n < |plan|
    ensures Demand(plan[..n + 1], key) == Demand(plan[..n], key) + if plan[n] == key then 1 else 0
  {
    assert plan[..n + 1][..n] == plan[..n];
  }

  ghost predicate Satisfiable(plan: seq<SiteLevel>, pool: seq<QuestionRef>) {
    forall key :: Demand(plan, key) <= |Supply(pool, key)|
  }

  /** The promise of a selection: every entry has the prescribed site and level, and none repeats. */
  ghost predicate Fulfils(ids: seq<QuestionId>, plan: seq<SiteLevel>, pool: seq<QuestionRef>) {
    && |ids| == |plan|
    && Distinct(ids)
    && forall i :: 0 <= i < |ids| ==> InPool(pool, ids[i], plan[i])
  }

  // ---------------------------------------------------------------- buckets

  type Buckets = map<SiteLevel, seq<QuestionId>>

  function Bucket(buckets: Buckets, key: SiteLevel): seq<QuestionId> {
    if key in buckets then buckets[key] else []
  }

  ghost predicate Shelved(buckets: Buckets, pool: seq<QuestionRef>) {
    forall key :: multiset(Bucket(buckets, key)) == multiset(Supply(pool, key))
  }

  /** Groups the pool, then shuffles every bucket with its own draws. */
  method ShuffledBuckets(pool: seq<QuestionRef>, draws: SiteLevel -> seq<nat>) returns (buckets: Buckets)
    ensures Shelved(buckets, pool)
  {
    buckets := map[];
    for i := 0 to |pool|
      invariant forall key :: Bucket(buckets, key) == Supply(pool[..i], key)
    {
      var q := pool[i];
      var key := SiteLevel(q.site, q.level);
      assert pool[..i + 1][..i] == pool[..i];
      buckets := buckets[key := Bucket(buckets, key) + [q.id]];
    }
    assert pool[..|pool|] == pool;
    var rest := buckets.Keys;
    while rest != {}
      invariant rest <= buckets.Keys
      invariant Shelved(buckets, pool)
    {
      var key :| key in rest;
      var ids := new QuestionId[|buckets[key]|](i requires 0 <= i < |buckets[key]| => buckets[key][i]);
      assert ids[..] == buckets[key];
      Shuffle(ids, draws(key));
      ShuffledIsPermutation(buckets[key], draws(key));
      assert multiset(ids[..]) == multiset(Bucket(buckets, key));
      buckets := buckets[key := ids[..]];
      rest := rest - {key};
    }
  }

  // ---------------------------------------------------------------- selection

  /** The i-th question: the next unused one of its bucket. */
  ghost predicate PickedAt(id: QuestionId, i: nat, plan: seq<SiteLevel>, buckets: Buckets)
    requires i < |plan|
  {
    && Demand(plan[..i], plan[i]) < |Bucket(buckets, plan[i])|
    && id == Bucket(buckets, plan[i])[Demand(plan[..i], plan[i])]
  }

  ghost predicate PickedInOrder(ids: seq<QuestionId>, plan: seq<SiteLevel>, buckets: Buckets) {
    |ids| <= |plan| && forall i :: 0 <= i < |ids| ==> PickedAt(ids[i], i, plan, buckets)
  }

  lemma ShelvedMembers(buckets: Buckets, pool: seq<QuestionRef>, key: SiteLevel)
    requires Shelved(buckets, pool) && DistinctIds(pool)
    ensures |Bucket(buckets, key)| == |Supply(pool, key)|
    ensures Distinct(Bucket(buckets, key))
    ensures forall id :: id in Bucket(buckets, key) <==> InPool(pool, id, key)
  {
    var b, s := Bucket(buckets, key), Supply(pool, key);
    assert multiset(b) == multiset(s);
    assert |multiset(b)| == |b| && |multiset(s)| == |s|;
    SupplyIsFromPool(pool, key);
    forall id ensures id in b <==> InPool(pool, id, key) {
      assert id in multiset(b) <==> id in multiset(s);
    }
    PermutationStaysDistinct(s, b);
  }

  lemma PermutationStaysDistinct<T>(s: seq<T>, t: seq<T>)
    requires multiset(s) == multiset(t) && Distinct(s)
    ensures Distinct(t)
  {
    forall i, j | 0 <= i < j < |t| ensures t[i] != t[j] {
      if t[i] == t[j] {
        assert t == t[..i] + [t[i]] + t[i + 1..j] + [t[j]] + t[j + 1..];
        assert multiset(t)[t[i]] >= 2;
        AtMostOnce(s, t[i]);
      }
    }
  }

  lemma PicksAreDistinct(ids: seq<QuestionId>, plan: seq<SiteLevel>, buckets: Buckets, pool: seq<QuestionRef>, i: nat,
                         j: nat)
    requires PickedInOrder(ids, plan, buckets) && Shelved(buckets, pool) && DistinctIds(pool)
    requires i < j < |ids|
    ensures ids[i] != ids[j]
  {
    ShelvedMembers(buckets, pool, plan[i]);
    ShelvedMembers(buckets, pool, plan[j]);
    assert ids[i] in Bucket(buckets, plan[i]) && ids[j] in Bucket(buckets, plan[j]);
    if plan[i] == plan[j] {
      DemandStep(plan, i, plan[i]);
      DemandGrows(plan[..j], i + 1, plan[i]);
      assert plan[..j][..i + 1] == plan[..i + 1];
    }
  }

  lemma PicksFulfil(ids: seq<QuestionId>, plan: seq<SiteLevel>, buckets: Buckets, pool: seq<QuestionRef>)
    requires PickedInOrder(ids, plan, buckets) && Shelved(buckets, pool) && DistinctIds(pool)
    requires |ids| == |plan|
    ensures Fulfils(ids, plan, pool)
  {
    forall i, j | 0 <= i < j < |ids| ensures ids[i] != ids[j] {
      PicksAreDistinct(ids, plan, buckets, pool, i, j);
    }
    forall i | 0 <= i < |ids| ensures InPool(pool, ids[i], plan[i]) {
      ShelvedMembers(buckets, pool, plan[i]);
      assert ids[i] in Bucket(buckets, plan[i]);
    }
  }

  lemma {:induction false} PicksFit(ids: seq<QuestionId>, plan: seq<SiteLevel>, buckets: Buckets, key: SiteLevel)
    requires PickedInOrder(ids, plan, buckets)
    ensures Demand(plan[..|ids|], key) <= |Bucket(buckets, key)|
  {
    if ids != [] {
      var n := |ids| - 1;
      PicksFit(ids[..n], plan, buckets, key);
      assert PickedAt(ids[n], n, plan, buckets);
      DemandStep(plan, n, key);
    }
  }

  lemma PlanSplit(cells: seq<seq<int>>, shortSession: bool, stage: nat)
    requires stage < |cells| && forall levels :: levels in cells ==> |levels| == 3
    ensures PlanFrom(cells, shortSession, stage)
         == Cells(stage + 1, LevelsToAsk(cells[stage], shortSession)) + PlanFrom(cells, shortSession, stage + 1)
  {
  }

  function Next(next: map<SiteLevel, nat>, key: SiteLevel): nat {
    if key in next then next[key] else 0
  }

  /** The counters hold what the first n questions of the plan have used. */
  ghost predicate Counts(next: map<SiteLevel, nat>, plan: seq<SiteLevel>, n: nat)
    requires n <= |plan|
  {
    forall key :: Next(next, key) == Demand(plan[..n], key)
  }

  lemma CountStep(next: map<SiteLevel, nat>, plan: seq<SiteLevel>, n: nat)
    requires n < |plan| && Counts(next, plan, n)
    ensures Counts(next[plan[n] := Next(next, plan[n]) + 1], plan, n + 1)
  {
    forall key {:trigger Demand(plan[..n + 1], key)}
      ensures Next(next[plan[n] := Next(next, plan[n]) + 1], key) == Demand(plan[..n + 1], key)
    {
      DemandStep(plan, n, key);
    }
  }

  lemma PickStep(ids: seq<QuestionId>, plan: seq<SiteLevel>, buckets: Buckets, id: QuestionId)
    requires PickedInOrder(ids, plan, buckets) && |ids| < |plan| && PickedAt(id, |ids|, plan, buckets)
    ensures PickedInOrder(ids + [id], plan, buckets)
  {
  }

  /** An exhausted bucket means the whole demand exceeds the supply. */
  lemma TooFew(plan: seq<SiteLevel>, n: nat, buckets: Buckets, pool: seq<QuestionRef>)
    requires n < |plan| && Shelved(buckets, pool) && DistinctIds(pool)
    requires Demand(plan[..n], plan[n]) >= |Bucket(buckets, plan[n])|
    ensures Demand(plan, plan[n]) > |Supply(pool, plan[n])|
  {
    DemandStep(plan, n, plan[n]);
    DemandGrows(plan, n + 1, plan[n]);
    ShelvedMembers(buckets, pool, plan[n]);
  }

  lemma SelectionFits(ids: seq<QuestionId>, plan: seq<SiteLevel>, buckets: Buckets, pool: seq<QuestionRef>)
    requires PickedInOrder(ids, plan, buckets) && |ids| == |plan| && Shelved(buckets, pool) && DistinctIds(pool)
    ensures Satisfiable(plan, pool) && Fulfils(ids, plan, pool)
  {
    PicksFulfil(ids, plan, buckets, pool);
    forall key ensures Demand(plan, key) <= |Supply(pool, key)| {
      PicksFit(ids, plan, buckets, key);
      assert plan[..|ids|] == plan;
      ShelvedMembers(buckets, pool, key);
    }
  }

  lemma PlanAt(plan: seq<SiteLevel>, before: nat, cells: seq<SiteLevel>, rest: seq<SiteLevel>)
    requires before <= |plan| && plan[before..] == cells + rest
    ensures forall k :: 0 <= k < |cells| ==> plan[before + k] == cells[k]
    ensures before + |cells| <= |plan| && plan[before + |cells|..] == rest
  {
    assert forall k :: 0 <= k < |cells| ==> plan[before..][k] == cells[k];
    assert plan[before + |cells|..] == plan[before..][|cells|..];
  }

  datatype Selection = Selected(ids: seq<QuestionId>) | UnknownJenjang | NotEnough(key: SiteLevel)

  /**
   * Sound and complete for every shuffle: it selects exactly when each demand fits the supply, and
   * then fulfils the composition.
   */
  method SelectQuestions(jenjang: Jenjang, shortSession: bool, pool: seq<QuestionRef>, draws: SiteLevel -> seq<nat>)
    returns (r: Selection)
    requires DistinctIds(pool)
    ensures r.UnknownJenjang? <==> Composition(jenjang).None?
    ensures Composition(jenjang).Some? ==>
      && (r.Selected? <==> Satisfiable(Plan(jenjang, shortSession), pool))
      && (r.Selected? ==> Fulfils(r.ids, Plan(jenjang, shortSession), pool))
      && (r.NotEnough? ==> Demand(Plan(jenjang, shortSession), r.key) > |Supply(pool, r.key)|)
  {
    var composition := Composition(jenjang);
    if composition.None? { return UnknownJenjang; }
    r := FillCells(composition.value, shortSession, pool, draws);
  }

  /** The next unused id of the bucket a cell asks for. */
  method Pick(key: SiteLevel, buckets: Buckets, ghost pool: seq<QuestionRef>, ghost ids: seq<QuestionId>,
              next: map<SiteLevel, nat>, ghost plan: seq<SiteLevel>)
    returns (picked: Option<QuestionId>)
    requires DistinctIds(pool) && Shelved(buckets, pool)
    requires PickedInOrder(ids, plan, buckets) && |ids| < |plan| && Counts(next, plan, |ids|) && plan[|ids|] == key
    ensures picked.Some? ==>
      && PickedInOrder(ids + [picked.value], plan, buckets)
      && Counts(next[key := Next(next, key) + 1], plan, |ids| + 1)
    ensures picked.None? ==> Demand(plan, key) > |Supply(pool, key)|
  {
    var i := Next(next, key);
    if i >= |Bucket(buckets, key)| {
      TooFew(plan, |ids|, buckets, pool);
      return None;
    }
    CountStep(next, plan, |ids|);
    PickStep(ids, plan, buckets, Bucket(buckets, key)[i]);
    return Some(Bucket(buckets, key)[i]);
  }

  method FillCells(cells: seq<seq<int>>, shortSession: bool, pool: seq<QuestionRef>, draws: SiteLevel -> seq<nat>)
    returns (r: Selection)
    requires DistinctIds(pool) && forall levels :: levels in cells ==> |levels| == 3
    ensures var plan := PlanFrom(cells, shortSession, 0);
      && !r.UnknownJenjang?
      && (r.Selected? ==> Satisfiable(plan, pool) && Fulfils(r.ids, plan, pool))
      && (r.NotEnough? ==> Demand(plan, r.key) > |Supply(pool, r.key)|)
  {
    ghost var plan := PlanFrom(cells, shortSession, 0);
    var buckets := ShuffledBuckets(pool, draws);
    var next: map<SiteLevel, nat> := map[];
    var ids: seq<QuestionId> := [];
    for stage := 0 to |cells|
      invariant PickedInOrder(ids, plan, buckets) && Counts(next, plan, |ids|)
      invariant plan[|ids|..] == PlanFrom(cells, shortSession, stage)
    {
      var levels := LevelsToAsk(cells[stage], shortSession);
      PlanSplit(cells, shortSession, stage);
      PlanAt(plan, |ids|, Cells(stage + 1, levels), PlanFrom(cells, shortSession, stage + 1));
      hide PlanFrom, PickedInOrder, Counts, Shelved, DistinctIds;
      var missing;
      missing, ids, next := FillSite(stage + 1, levels, buckets, pool, ids, next, plan);
      if missing.Some? { return NotEnough(missing.value); }
    }
    SelectionFits(ids, plan, buckets, pool);
    return Selected(ids);
  }

  /** The questions of one site, or the first cell that lacks one. */
  method FillSite(site: int, levels: seq<int>, buckets: Buckets, ghost pool: seq<QuestionRef>, before: seq<QuestionId>,
                  counts: map<SiteLevel, nat>, ghost plan: seq<SiteLevel>)
    returns (missing: Option<SiteLevel>, ids: seq<QuestionId>, next: map<SiteLevel, nat>)
    requires DistinctIds(pool) && Shelved(buckets, pool)
    requires PickedInOrder(before, plan, buckets) && Counts(counts, plan, |before|)
    requires |before| + |levels| <= |plan|
    requires forall k :: 0 <= k < |levels| ==> plan[|before| + k] == Cells(site, levels)[k]
    ensures missing.None? ==>
      |ids| == |before| + |levels| && PickedInOrder(ids, plan, buckets) && Counts(next, plan, |ids|)
    ensures missing.Some? ==> Demand(plan, missing.value) > |Supply(pool, missing.value)|
  {
    hide DistinctIds, Shelved, Demand, Supply;
    ids, next := before, counts;
    for k := 0 to |levels|
      invariant |ids| == |before| + k
      invariant PickedInOrder(ids, plan, buckets) && Counts(next, plan, |ids|)
    {
      var key := SiteLevel(site, levels[k]);
      assert plan[|before| + k] == Cells(site, levels)[k] == key;
      hide PickedInOrder, Counts;
      var picked := Pick(key, buckets, pool, ids, next, plan);
      if picked.None? { return Some(key), ids, next; }
      ids := ids + [picked.value];
      next := next[key := Next(next, key) + 1];
    }
    return None, ids, next;
  }

  lemma {:induction false} PlanFromSize(cells: seq<seq<int>>, shortSession: bool, stage: nat)
    requires stage <= |cells| && forall levels :: levels in cells ==> |levels| == 3
    requires forall levels, level :: levels in cells && level in levels ==> 1 <= level <= 3
    ensures |PlanFrom(cells, shortSession, stage)| == (|cells| - stage) * if shortSession then 2 else 3
    ensures forall cell :: cell in PlanFrom(cells, shortSession, stage) ==>
      1 <= cell.level <= 3 && stage < cell.site <= |cells|
    decreases |cells| - stage
  {
    if stage < |cells| {
      PlanFromSize(cells, shortSession, stage + 1);
      var levels := LevelsToAsk(cells[stage], shortSession);
      assert forall level :: level in levels ==> level in cells[stage];
      assert cells[stage] in cells;
      assert forall cell :: cell in Cells(stage + 1, levels) ==> cell.level in levels;
    }
  }

  lemma PlanSize(jenjang: Jenjang, shortSession: bool)
    requires Composition(jenjang).Some?
    ensures |Plan(jenjang, shortSession)| == if shortSession then 10 else 15
    ensures forall cell :: cell in Plan(jenjang, shortSession) ==> 1 <= cell.level <= 3 && 1 <= cell.site <= 5
  {
    PlanFromSize(Composition(jenjang).value, shortSession, 0);
  }

  // ---------------------------------------------------------------- the order of a selection

  lemma {:induction false} PlanEntry(cells: seq<seq<int>>, shortSession: bool, stage: nat, site: nat, i: nat)
    requires stage <= site < |cells| && forall levels :: levels in cells ==> |levels| == 3
    requires i < if shortSession then 2 else 3
    ensures var n := if shortSession then 2 else 3;
      var plan := PlanFrom(cells, shortSession, stage);
      && n * (site - stage) + i < |plan|
      && plan[n * (site - stage) + i] == SiteLevel(site + 1, cells[site][if shortSession && i == 1 then 2 else i])
    decreases |cells| - stage
  {
    var n := if shortSession then 2 else 3;
    var here := Cells(stage + 1, LevelsToAsk(cells[stage], shortSession));
    assert |here| == n && |cells[stage]| == 3;
    if stage < site {
      PlanEntry(cells, shortSession, stage + 1, site, i);
      assert n * (site - stage) + i == n + (n * (site - (stage + 1)) + i);
    }
  }

  function RowBase(row: seq<int>): int
    requires |row| == 3
  {
    BasePoints(row[0]) + BasePoints(row[1]) + BasePoints(row[2])
  }

  /** Within a site questions never get easier, and no site is worth less than the one before. */
  lemma SitesGetHarder(jenjang: Jenjang, site: nat)
    requires Composition(jenjang).Some? && 1 <= site <= 5
    ensures var rows := Composition(jenjang).value;
      && |rows| == 5 && (forall row :: row in rows ==> |row| == 3)
      && 1 <= rows[site - 1][0] <= rows[site - 1][1] <= rows[site - 1][2] <= 3
      && (site < 5 ==> RowBase(rows[site - 1]) <= RowBase(rows[site]))
  {
  }

  /**
   * Three questions of each site in turn, with the levels of its row in that order; in a short session the first and
   * the third of them.
   */
  lemma SelectionIsLaidOut(jenjang: Jenjang, shortSession: bool, pool: seq<QuestionRef>, ids: seq<QuestionId>,
                           site: nat, i: nat)
    requires Composition(jenjang).Some? && Fulfils(ids, Plan(jenjang, shortSession), pool)
    requires 1 <= site <= 5 && i < if shortSession then 2 else 3
    ensures |ids| == if shortSession then 10 else 15
    ensures |Composition(jenjang).value| == 5 && |Composition(jenjang).value[site - 1]| == 3
    ensures var row := Composition(jenjang).value[site - 1];
      if shortSession
      then QuestionRef(ids[2 * (site - 1) + i], site, row[2 * i]) in pool
      else QuestionRef(ids[3 * (site - 1) + i], site, row[i]) in pool
  {
    hide DistinctIds, Composition, PlanFrom, Distinct, BasePoints;
    PlanSize(jenjang, shortSession);
    SitesGetHarder(jenjang, site);
    var n := if shortSession then 2 else 3;
    PlanEntry(Composition(jenjang).value, shortSession, 0, site - 1, i);
    PicksAt(pool, ids, Plan(jenjang, shortSession), n * (site - 1) + i);
  }

  lemma PicksAt(pool: seq<QuestionRef>, ids: seq<QuestionId>, plan: seq<SiteLevel>, k: nat)
    requires Fulfils(ids, plan, pool) && k < |plan|
    ensures |ids| == |plan| && QuestionRef(ids[k], plan[k].site, plan[k].level) in pool
  {
    assert InPool(pool, ids[k], plan[k]);
  }
}
