/** Every constant of the composition table is attained in a room that the selector builds from a valid bank. */
module Witness {
  import opened Common
  import opened Scoring
  import opened Questions
  import opened Selector
  import opened Catalog
  import opened RoomSpec
  import opened World
  import opened Bounds
  import opened Extremes

  function Digit(n: nat): char
    requires n < 10
  {
    '0' + n as char
  }

  const OPTIONS := [Choice("opt-a", Text("ya", "yes"), true), Choice("opt-b", Text("tidak", "no"), false)]

  /** The n-th question of a bank, for a given site and level. */
  function BankQuestion(key: SiteLevel, n: nat): Question
    requires 1 <= key.site <= 5 && n < 100
  {
    Question(['M', Digit(key.site), '-', Digit(n / 10), Digit(n % 10)], key.site, key.level, MultipleChoice,
             Text("apa", "what"), Text("itu", "that"), OPTIONS)
  }

  lemma LettersAreNoSpace(c: char)
    requires 'a' <= c <= 'z'
    ensures !IsSpace(c)
  {
  }

  lemma NotBlank(t: Text)
    requires t.id != "" && t.en != "" && 'a' <= t.id[0] <= 'z' && 'a' <= t.en[0] <= 'z'
    ensures !IsBlank(t)
  {
    LettersAreNoSpace(t.id[0]);
    LettersAreNoSpace(t.en[0]);
    hide IsSpace;
  }

  lemma OptionsAreValid()
    ensures WellLabelled(OPTIONS) && CorrectCount(OPTIONS) == 1
  {
    NotBlank(OPTIONS[0].caption);
    NotBlank(OPTIONS[1].caption);
    hide IsBlank;
    assert OPTIONS[0].id[..4] == "opt-" && OPTIONS[1].id[..4] == "opt-";
    assert OPTIONS[1..] == [OPTIONS[1]] && OPTIONS[1..][1..] == [];
  }

  lemma BankIdIsValid(key: SiteLevel, n: nat)
    requires 1 <= key.site <= 5 && 1 <= key.level <= 3 && n < 100
    ensures ValidId(BankQuestion(key, n))
  {
    var id := BankQuestion(key, n).id;
    assert |id| == 5 && id[0] == 'M' && id[1] == Digit(key.site) && id[2] == '-';
    assert id[3] == Digit(n / 10) && id[4] == Digit(n % 10);
  }

  lemma BankQuestionIsValid(key: SiteLevel, n: nat)
    requires 1 <= key.site <= 5 && 1 <= key.level <= 3 && n < 100
    ensures ValidQuestion(BankQuestion(key, n))
  {
    hide IsBlank, WellLabelled, CorrectCount, ValidId, Digit;
    OptionsAreValid();
    NotBlank(Text("apa", "what"));
    NotBlank(Text("itu", "that"));
    BankIdIsValid(key, n);
  }

  ghost predicate OnSites(plan: seq<SiteLevel>) {
    |plan| < 100 && forall i :: 0 <= i < |plan| ==> 1 <= plan[i].site <= 5 && 1 <= plan[i].level <= 3
  }

  /** One question for each cell of a plan. */
  function BankFor(plan: seq<SiteLevel>): (bank: seq<Question>)
    requires OnSites(plan)
    ensures |bank| == |plan|
  {
    seq(|plan|, i requires 0 <= i < |plan| => BankQuestion(plan[i], i))
  }

  function PoolFor(plan: seq<SiteLevel>): (pool: seq<QuestionRef>)
    requires OnSites(plan)
    ensures |pool| == |plan|
  {
    seq(|plan|, i requires 0 <= i < |plan| => QuestionRef(BankQuestion(plan[i], i).id, plan[i].site, plan[i].level))
  }

  function IdsFor(plan: seq<SiteLevel>): (ids: seq<QuestionId>)
    requires OnSites(plan)
    ensures |ids| == |plan|
  {
    seq(|plan|, i requires 0 <= i < |plan| => BankQuestion(plan[i], i).id)
  }

  lemma IdsDiffer(a: SiteLevel, i: nat, b: SiteLevel, j: nat)
    requires 1 <= a.site <= 5 && 1 <= b.site <= 5 && i < j < 100
    ensures BankQuestion(a, i).id != BankQuestion(b, j).id
  {
    assert BankQuestion(a, i).id[3..] == [Digit(i / 10), Digit(i % 10)];
    assert BankQuestion(b, j).id[3..] == [Digit(j / 10), Digit(j % 10)];
    assert i == 10 * (i / 10) + i % 10 && j == 10 * (j / 10) + j % 10;
    assert BankQuestion(a, i).id[3] == Digit(i / 10) && BankQuestion(a, i).id[4] == Digit(i % 10);
    assert BankQuestion(b, j).id[3] == Digit(j / 10) && BankQuestion(b, j).id[4] == Digit(j % 10);
  }

  lemma IdsAreDistinct(plan: seq<SiteLevel>)
    requires OnSites(plan)
    ensures Distinct(IdsFor(plan))
  {
    hide BankQuestion;
    forall i, j | 0 <= i < j < |plan| ensures BankQuestion(plan[i], i).id != BankQuestion(plan[j], j).id {
      IdsDiffer(plan[i], i, plan[j], j);
    }
  }

  lemma BankIsValid(plan: seq<SiteLevel>)
    requires OnSites(plan)
    ensures ValidBank(BankFor(plan))
  {
    hide BankQuestion, ValidQuestion;
    IdsAreDistinct(plan);
    var bank, ids := BankFor(plan), IdsFor(plan);
    forall i | 0 <= i < |bank| ensures ValidQuestion(bank[i]) && bank[i].id == ids[i] {
      BankQuestionIsValid(plan[i], i);
    }
  }

  /** Bank, pool and ids agree, place by place. */
  lemma SamePlaces(plan: seq<SiteLevel>, i: nat)
    requires OnSites(plan) && i < |plan|
    ensures var bank, pool, ids := BankFor(plan), PoolFor(plan), IdsFor(plan);
      && bank[i].id == ids[i] && pool[i] == QuestionRef(bank[i].id, bank[i].site, bank[i].level)
      && pool[i] == QuestionRef(ids[i], plan[i].site, plan[i].level)
  {
  }

  lemma PoolRefersToBank(plan: seq<SiteLevel>)
    requires OnSites(plan)
    ensures RefersTo(PoolFor(plan), BankFor(plan))
  {
    IdsAreDistinct(plan);
    var bank, pool, ids := BankFor(plan), PoolFor(plan), IdsFor(plan);
    hide BankFor, PoolFor, IdsFor, OnSites;
    forall i | 0 <= i < |pool| ensures pool[i].id == ids[i] && RefersAt(pool, bank, i) {
      SamePlaces(plan, i);
    }
    RefersPlaceByPlace(pool, bank);
  }

  ghost predicate RefersAt(pool: seq<QuestionRef>, bank: seq<Question>, i: nat) {
    i < |pool| && i < |bank| && pool[i] == QuestionRef(bank[i].id, bank[i].site, bank[i].level)
  }

  lemma RefersPlaceByPlace(pool: seq<QuestionRef>, bank: seq<Question>)
    requires DistinctIds(pool) && forall i :: 0 <= i < |pool| ==> RefersAt(pool, bank, i)
    ensures RefersTo(pool, bank)
  {
    forall q | q in pool
      ensures exists j :: 0 <= j < |bank| && q == QuestionRef(bank[j].id, bank[j].site, bank[j].level)
    {
      var i :| 0 <= i < |pool| && pool[i] == q;
      assert RefersAt(pool, bank, i);
    }
  }

  /** The ids are a selection from the pool, and the bank answers them in order. */
  lemma IdsAreASelection(plan: seq<SiteLevel>)
    requires OnSites(plan)
    ensures Fulfils(IdsFor(plan), plan, PoolFor(plan)) && InOrderOf(BankFor(plan), IdsFor(plan), BankFor(plan))
  {
    IdsAreDistinct(plan);
    var bank, pool, ids := BankFor(plan), PoolFor(plan), IdsFor(plan);
    hide BankFor, PoolFor, IdsFor, OnSites;
    forall i | 0 <= i < |plan|
      ensures InPool(pool, ids[i], plan[i]) && bank[i] in bank && bank[i].id == ids[i]
    {
      SamePlaces(plan, i);
      assert pool[i] in pool;
    }
  }

  /** The constant of a jenjang and session length is attained whenever the room is a selection from a valid bank. */
  lemma SelectedRoomsAttainTheCap(c: Config, shortSession: bool, bank: seq<Question>, pool: seq<QuestionRef>,
                                  ids: seq<QuestionId>)
    returns (inputs: seq<Input>)
    requires ValidBank(bank) && RefersTo(pool, bank) && Composition(c.jenjang).Some?
    requires Fulfils(ids, Plan(c.jenjang, shortSession), pool) && InOrderOf(c.questions, ids, bank)
    ensures var w := Run(c, CREATED, inputs);
      0 in w.room.players && w.room.players[0].progress.score == CompositionCap(c.jenjang, shortSession)
  {
    hide ValidBank, RefersTo, Fulfils, InOrderOf, Plan, Run, CompositionCap, ScoreCap;
    SelectedRoomCap(c, shortSession, bank, pool, ids);
    inputs := TheCapIsReached(c);
  }

  /** And such a room exists for each of the six constants. */
  lemma EveryConstantIsAttained(jenjang: Jenjang, shortSession: bool)
    returns (c: Config, bank: seq<Question>, pool: seq<QuestionRef>, ids: seq<QuestionId>, inputs: seq<Input>)
    requires Composition(jenjang).Some?
    ensures c.jenjang == jenjang && ValidBank(bank) && RefersTo(pool, bank)
    ensures Fulfils(ids, Plan(jenjang, shortSession), pool) && InOrderOf(c.questions, ids, bank)
    ensures var w := Run(c, CREATED, inputs);
      0 in w.room.players && w.room.players[0].progress.score == CompositionCap(jenjang, shortSession)
  {
    hide ValidBank, RefersTo, Fulfils, InOrderOf, Plan, Run, CompositionCap, BankFor, PoolFor, IdsFor;
    var plan := Plan(jenjang, shortSession);
    PlanSize(jenjang, shortSession);
    BankIsValid(plan);
    PoolRefersToBank(plan);
    IdsAreASelection(plan);
    bank, pool, ids := BankFor(plan), PoolFor(plan), IdsFor(plan);
    c := Config(bank, jenjang, false, 0, 0, false);
    inputs := SelectedRoomsAttainTheCap(c, shortSession, bank, pool, ids);
  }
}
