/**
 * Loading a room's questions by id, and what rooms built from a selection look like (api/internal/store/gameplay.go).
 */
module Catalog {
  import opened Common
  import opened Questions
  import opened Selector
  import opened RoomSpec
  import opened Persistence

  ghost predicate InOrderOf(questions: seq<Question>, ids: seq<QuestionId>, rows: seq<Question>) {
    && |questions| == |ids|
    && forall i :: 0 <= i < |ids| ==> questions[i] in rows && questions[i].id == ids[i]
  }

  ghost predicate Listed(rows: seq<Question>, id: QuestionId) {
    exists j :: 0 <= j < |rows| && rows[j].id == id
  }

  lemma ListedAppend(rows: seq<Question>, j: nat, id: QuestionId)
    requires j < |rows|
    ensures Listed(rows[..j + 1], id) <==> Listed(rows[..j], id) || rows[j].id == id
  {
    if rows[j].id == id { assert rows[..j + 1][j].id == id; }
    if Listed(rows[..j], id) {
      var k :| 0 <= k < j && rows[..j][k].id == id;
      assert rows[..j + 1][k].id == id;
    }
    if Listed(rows[..j + 1], id) && rows[j].id != id {
      var k :| 0 <= k <= j && rows[..j + 1][k].id == id;
      assert rows[..j][k].id == id;
    }
  }

  /** Looks each id up among the rows, or gives nothing if one is not there. */
  method QuestionsByIds(rows: seq<Question>, ids: seq<QuestionId>) returns (r: Option<seq<Question>>)
    ensures r.Some? <==> forall i :: 0 <= i < |ids| ==> Listed(rows, ids[i])
    ensures r.Some? ==> InOrderOf(r.value, ids, rows)
  {
    var byId: map<QuestionId, Question> := map[];
    for j := 0 to |rows|
      invariant forall id :: id in byId <==> Listed(rows[..j], id)
      invariant forall id :: id in byId ==> byId[id] in rows && byId[id].id == id
    {
      forall id ensures Listed(rows[..j + 1], id) <==> Listed(rows[..j], id) || rows[j].id == id
      {
        ListedAppend(rows, j, id);
      }
      byId := byId[rows[j].id := rows[j]];
    }
    assert rows[..|rows|] == rows;
    var ordered: seq<Question> := [];
    for i := 0 to |ids|
      invariant InOrderOf(ordered, ids[..i], rows)
      invariant forall k :: 0 <= k < i ==> ids[k] in byId
    {
      if ids[i] !in byId { return None; }
      ordered := ordered + [byId[ids[i]]];
    }
    assert ids[..|ids|] == ids;
    return Some(ordered);
  }

  /** The selectable references of a bank: same site, same level, some questions switched off. */
  ghost predicate RefersTo(pool: seq<QuestionRef>, bank: seq<Question>) {
    && DistinctIds(pool)
    && forall q :: q in pool ==>
        exists j :: 0 <= j < |bank| && q == QuestionRef(bank[j].id, bank[j].site, bank[j].level)
  }

  lemma SelectedLevel(bank: seq<Question>, pool: seq<QuestionRef>, id: QuestionId, key: SiteLevel, q: Question)
    requires ValidBank(bank) && RefersTo(pool, bank) && InPool(pool, id, key) && q in bank && q.id == id
    ensures q.level == key.level && q.site == key.site && Gradable(q.options)
  {
    var ref := QuestionRef(id, key.site, key.level);
    var j :| 0 <= j < |bank| && ref == QuestionRef(bank[j].id, bank[j].site, bank[j].level);
    var k :| 0 <= k < |bank| && bank[k] == q;
    assert ValidQuestion(bank[k]) && j == k;
  }

  /** A room built by the selector from a validated bank meets everything the room machine relies on. */
  lemma SelectionIsPlayable(c: Config, shortSession: bool, bank: seq<Question>, pool: seq<QuestionRef>,
                            ids: seq<QuestionId>)
    requires ValidBank(bank) && RefersTo(pool, bank) && Composition(c.jenjang).Some?
    requires Fulfils(ids, Plan(c.jenjang, shortSession), pool) && InOrderOf(c.questions, ids, bank)
    ensures Playable(c) && |c.questions| == if shortSession then 10 else 15
    ensures forall i :: 0 <= i < |c.questions| ==> c.questions[i].level == Plan(c.jenjang, shortSession)[i].level
  {
    hide Plan, ValidBank, RefersTo;
    var plan := Plan(c.jenjang, shortSession);
    PlanSize(c.jenjang, shortSession);
    forall i | 0 <= i < |c.questions|
      ensures c.questions[i].level == plan[i].level && 1 <= c.questions[i].level <= 3
      ensures Gradable(c.questions[i].options)
    {
      assert plan[i] in plan;
      SelectedLevel(bank, pool, ids[i], plan[i], c.questions[i]);
    }
  }
}
