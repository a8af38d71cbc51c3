/** Question content: grading an answer and the rules a question bank must meet before it is seeded. */
module Questions {
  import opened Common

  datatype Text = Text(id: string, en: string)
  datatype Choice = Choice(id: OptionId, caption: Text, correct: bool)
  datatype Kind = MultipleChoice | TrueFalse | FillIn | OtherKind(name: string)
  datatype Question = Question(id: QuestionId, site: int, level: int, kind: Kind, prompt: Text,
                               explanation: Text, options: seq<Choice>)

  // ---------------------------------------------------------------- grading

  predicate HasOption(options: seq<Choice>, id: OptionId) {
    exists i :: 0 <= i < |options| && options[i].id == id
  }

  /** The verdict of the first option with this id; an unknown id is wrong. */
  function IsCorrect(options: seq<Choice>, id: OptionId): bool {
    if options == [] then false
    else if options[0].id == id then options[0].correct
    else IsCorrect(options[1..], id)
  }

  /** The first option marked correct, or the empty id. */
  function CorrectOptionId(options: seq<Choice>): OptionId {
    if options == [] then ""
    else if options[0].correct then options[0].id
    else CorrectOptionId(options[1..])
  }

  /** What grading needs of a question: distinct option ids and exactly one correct option. */
  ghost predicate Gradable(options: seq<Choice>) {
    && (forall i, j :: 0 <= i < j < |options| ==> options[i].id != options[j].id)
    && CorrectCount(options) == 1
  }

  function CorrectCount(options: seq<Choice>): nat {
    if options == [] then 0 else (if options[0].correct then 1 else 0) + CorrectCount(options[1..])
  }

  lemma {:induction false} VerdictIsOwnMark(options: seq<Choice>, i: nat)
    requires i < |options| && forall j, k :: 0 <= j < k < |options| ==> options[j].id != options[k].id
    ensures IsCorrect(options, options[i].id) == options[i].correct
  {
    if i > 0 { VerdictIsOwnMark(options[1..], i - 1); }
  }

  lemma {:induction false} UnknownIsWrong(options: seq<Choice>, id: OptionId)
    requires !HasOption(options, id)
    ensures !IsCorrect(options, id)
  {
    if options != [] {
      assert options[0].id != id;
      UnknownIsWrong(options[1..], id);
    }
  }

  lemma {:induction false} NoneCorrect(options: seq<Choice>)
    ensures CorrectCount(options) == 0 <==> forall i :: 0 <= i < |options| ==> !options[i].correct
  {
    if options != [] {
      NoneCorrect(options[1..]);
      if forall i :: 0 <= i < |options| ==> !options[i].correct {
        assert !options[0].correct;
      } else {
        var i :| 0 <= i < |options| && options[i].correct;
        if i > 0 { assert options[1..][i - 1].correct; }
      }
    }
  }

  lemma {:induction false} OnlyCorrect(options: seq<Choice>, i: nat)
    requires i < |options| && CorrectCount(options) == 1
    requires forall j, k :: 0 <= j < k < |options| ==> options[j].id != options[k].id
    ensures options[i].correct <==> options[i].id == CorrectOptionId(options)
    ensures HasOption(options, CorrectOptionId(options))
  {
    NoneCorrect(options[1..]);
    if options[0].correct {
      if i > 0 { assert !options[1..][i - 1].correct; }
    } else {
      assert CorrectCount(options[1..]) == 1;
      assert options[1..] != [];
      OnlyCorrect(options[1..], if i > 0 then i - 1 else 0);
      var k :| 0 <= k < |options[1..]| && options[1..][k].id == CorrectOptionId(options[1..]);
      assert options[k + 1].id == CorrectOptionId(options);
    }
  }

  lemma SameMembers<T>(a: seq<T>, b: seq<T>, x: T)
    requires multiset(a) == multiset(b)
    ensures x in a <==> x in b
  {
    assert x in multiset(a) <==> x in multiset(b);
  }

  lemma KeyOfMember(options: seq<Choice>, shuffled: seq<Choice>, id: OptionId)
    requires multiset(shuffled) == multiset(options)
    ensures HasOption(shuffled, id) ==> HasOption(options, id)
  {
    if HasOption(shuffled, id) {
      var i :| 0 <= i < |shuffled| && shuffled[i].id == id;
      SameMembers(shuffled, options, shuffled[i]);
      var j :| 0 <= j < |options| && options[j] == shuffled[i];
      assert options[j].id == id;
    }
  }

  lemma IdsStayDistinct(options: seq<Choice>, shuffled: seq<Choice>)
    requires multiset(shuffled) == multiset(options)
    requires forall j, k :: 0 <= j < k < |options| ==> options[j].id != options[k].id
    ensures forall j, k :: 0 <= j < k < |shuffled| ==> shuffled[j].id != shuffled[k].id
  {
    forall j, k | 0 <= j < k < |shuffled|
      ensures shuffled[j].id != shuffled[k].id
    {
      if shuffled[j].id == shuffled[k].id {
        SameMembers(shuffled, options, shuffled[j]);
        SameMembers(shuffled, options, shuffled[k]);
        assert shuffled[j] == shuffled[k];
        var x := shuffled[j];
        TwiceInMultiset(shuffled, j, k);
        assert multiset(options)[x] >= 2;
        AtMostOnce(options, x);
      }
    }
  }

  lemma TwiceInMultiset<T>(s: seq<T>, j: nat, k: nat)
    requires j < k < |s| && s[j] == s[k]
    ensures multiset(s)[s[j]] >= 2
  {
    assert s == s[..j] + [s[j]] + s[j + 1..k] + [s[k]] + s[k + 1..];
  }

  /**
   * Grading does not depend on the order a player sees: every shuffle accepts exactly the original
   * option ids, and judges an id correct exactly if it is the one q.result reports.
   */
  lemma GradingIgnoresOrder(options: seq<Choice>, shuffled: seq<Choice>, id: OptionId)
    requires Gradable(options) && multiset(shuffled) == multiset(options)
    ensures HasOption(shuffled, id) <==> HasOption(options, id)
    ensures IsCorrect(shuffled, id) <==> id == CorrectOptionId(options)
  {
    KeyOfMember(options, shuffled, id);
    KeyOfMember(shuffled, options, id);
    IdsStayDistinct(options, shuffled);
    if HasOption(shuffled, id) {
      var i :| 0 <= i < |shuffled| && shuffled[i].id == id;
      VerdictIsOwnMark(shuffled, i);
      SameMembers(shuffled, options, shuffled[i]);
      var j :| 0 <= j < |options| && options[j] == shuffled[i];
      OnlyCorrect(options, j);
    } else {
      UnknownIsWrong(shuffled, id);
      NoneCorrect(options);
      OnlyCorrect(options, 0);
    }
  }

  // ---------------------------------------------------------------- the read-only loops

  method FindOption(options: seq<Choice>, id: OptionId) returns (found: bool)
    ensures found == HasOption(options, id)
  {
    for i := 0 to |options|
      invariant forall j :: 0 <= j < i ==> options[j].id != id
    {
      if options[i].id == id { return true; }
    }
    return false;
  }

  method Judge(options: seq<Choice>, id: OptionId) returns (correct: bool)
    ensures correct == IsCorrect(options, id)
  {
    for i := 0 to |options|
      invariant IsCorrect(options, id) == IsCorrect(options[i..], id)
    {
      if options[i].id == id { return options[i].correct; }
    }
    return false;
  }

  method FindCorrectOption(options: seq<Choice>) returns (id: OptionId)
    ensures id == CorrectOptionId(options)
  {
    for i := 0 to |options|
      invariant CorrectOptionId(options) == CorrectOptionId(options[i..])
    {
      if options[i].correct { return options[i].id; }
    }
    return "";
  }

  // ---------------------------------------------------------------- seeding

  datatype Problem =
    | DuplicateId(id: QuestionId) | BadId(id: QuestionId) | BadSite(id: QuestionId) | BadLevel(id: QuestionId)
    | BlankPrompt(id: QuestionId) | BlankExplanation(id: QuestionId)
    | UnknownKind(id: QuestionId) | OptionCount(id: QuestionId) | BadOptionId(id: QuestionId, option: OptionId)
    | BlankLabel(id: QuestionId, option: OptionId) | NotOneCorrect(id: QuestionId)

  predicate IsSpace(c: char) {
    || c in "\t\n\U{000B}\U{000C}\r \U{0085}\U{00A0}\U{1680}\U{2028}\U{2029}\U{202F}\U{205F}\U{3000}"
    || '\U{2000}' <= c <= '\U{200A}'
  }

  predicate IsBlank(t: Text) {
    (forall c :: c in t.id ==> IsSpace(c)) || (forall c :: c in t.en ==> IsSpace(c))
  }

  predicate IsDigit(c: char) { '0' <= c <= '9' }

  /** X-dd */
  predicate IsReserveId(id: QuestionId) {
    |id| == 4 && id[0] == 'X' && id[1] == '-' && IsDigit(id[2]) && IsDigit(id[3])
  }

  /** Ms-dd for a site s from 1 to 5 */
  predicate IsSiteId(id: QuestionId) {
    |id| == 5 && id[0] == 'M' && '1' <= id[1] <= '5' && id[2] == '-' && IsDigit(id[3]) && IsDigit(id[4])
  }

  /** opt-a to opt-d */
  predicate IsOptionId(id: OptionId) {
    |id| == 5 && id[..4] == "opt-" && 'a' <= id[4] <= 'd'
  }

  function OptionLimits(kind: Kind): Option<(nat, nat)> {
    match kind
    case MultipleChoice => Some((2, 4))
    case TrueFalse => Some((2, 2))
    case FillIn => Some((2, 4))
    case OtherKind(_) => None
  }

  ghost predicate WellLabelled(options: seq<Choice>) {
    && (forall i :: 0 <= i < |options| ==> IsOptionId(options[i].id) && !IsBlank(options[i].caption))
    && (forall i, j :: 0 <= i < j < |options| ==> options[i].id != options[j].id)
  }

  ghost predicate ValidOptions(q: Question) {
    && OptionLimits(q.kind).Some?
    && OptionLimits(q.kind).value.0 <= |q.options| <= OptionLimits(q.kind).value.1
    && WellLabelled(q.options)
    && CorrectCount(q.options) == 1
  }

  /** A reserve question may have any level; any other question names its own site. */
  predicate ValidId(q: Question) {
    if IsReserveId(q.id) then q.site == 0
    else IsSiteId(q.id) && q.id[1] as int - '0' as int == q.site && 1 <= q.level <= 3
  }

  ghost predicate ValidQuestion(q: Question) {
    ValidId(q) && !IsBlank(q.prompt) && !IsBlank(q.explanation) && ValidOptions(q)
  }

  ghost predicate ValidBank(questions: seq<Question>) {
    && (forall i, j :: 0 <= i < j < |questions| ==> questions[i].id != questions[j].id)
    && (forall i :: 0 <= i < |questions| ==> ValidQuestion(questions[i]))
  }

  lemma WellLabelledAppend(s: seq<Choice>, x: Choice)
    ensures WellLabelled(s + [x]) <==>
      WellLabelled(s) && IsOptionId(x.id) && !IsBlank(x.caption) && !HasOption(s, x.id)
  {
    var r := s + [x];
    if WellLabelled(r) {
      assert forall i :: 0 <= i < |s| ==> r[i] == s[i];
      assert r[|s|] == x;
    }
  }

  lemma HasOptionAppend(s: seq<Choice>, x: Choice)
    ensures forall id :: HasOption(s + [x], id) <==> HasOption(s, id) || x.id == id
  {
    var r := s + [x];
    assert r[|s|] == x;
    forall id ensures HasOption(r, id) <==> HasOption(s, id) || x.id == id {
      if HasOption(s, id) {
        var i :| 0 <= i < |s| && s[i].id == id;
        assert r[i].id == id;
      }
    }
  }

  lemma ValidBankAppend(s: seq<Question>, x: Question)
    ensures ValidBank(s + [x]) <==> ValidBank(s) && ValidQuestion(x) && !(exists i :: 0 <= i < |s| && s[i].id == x.id)
  {
    var r := s + [x];
    if ValidBank(r) {
      assert forall i :: 0 <= i < |s| ==> r[i] == s[i];
      assert r[|s|] == x;
    }
  }

  lemma {:induction false} CorrectCountAppend(s: seq<Choice>, x: Choice)
    ensures CorrectCount(s + [x]) == CorrectCount(s) + if x.correct then 1 else 0
  {
    if s == [] {
      assert [x][1..] == [] && s + [x] == [x];
    } else {
      assert (s + [x])[1..] == s[1..] + [x];
      CorrectCountAppend(s[1..], x);
    }
  }

  method ValidateOptions(q: Question) returns (problems: seq<Problem>)
    ensures problems == [] <==> ValidOptions(q)
  {
    problems := [];
    var limits := OptionLimits(q.kind);
    if limits.None? { return [UnknownKind(q.id)]; }
    if |q.options| < limits.value.0 || |q.options| > limits.value.1 {
      problems := problems + [OptionCount(q.id)];
    }
    var correct, ids: set<OptionId> := 0, {};
    for i := 0 to |q.options|
      invariant forall id :: id in ids <==> HasOption(q.options[..i], id)
      invariant correct == CorrectCount(q.options[..i])
      invariant problems == [] <==>
        limits.value.0 <= |q.options| <= limits.value.1 && WellLabelled(q.options[..i])
    {
      var o := q.options[i];
      assert q.options[..i + 1] == q.options[..i] + [o];
      WellLabelledAppend(q.options[..i], o);
      CorrectCountAppend(q.options[..i], o);
      HasOptionAppend(q.options[..i], o);
      if !IsOptionId(o.id) || o.id in ids { problems := problems + [BadOptionId(q.id, o.id)]; }
      ids := ids + {o.id};
      if IsBlank(o.caption) { problems := problems + [BlankLabel(q.id, o.id)]; }
      if o.correct { correct := correct + 1; }
    }
    assert q.options[..|q.options|] == q.options;
    if correct != 1 { problems := problems + [NotOneCorrect(q.id)]; }
  }

  method ValidateId(q: Question) returns (problems: seq<Problem>)
    ensures problems == [] <==> ValidId(q)
  {
    if IsReserveId(q.id) {
      return if q.site != 0 then [BadSite(q.id)] else [];
    }
    if !IsSiteId(q.id) { return [BadId(q.id)]; }
    problems := [];
    if q.id[1] as int - '0' as int != q.site { problems := problems + [BadSite(q.id)]; }
    if q.level < 1 || q.level > 3 { problems := problems + [BadLevel(q.id)]; }
  }

  method ValidateQuestion(q: Question) returns (problems: seq<Problem>)
    ensures problems == [] <==> ValidQuestion(q)
  {
    problems := ValidateId(q);
    if IsBlank(q.prompt) { problems := problems + [BlankPrompt(q.id)]; }
    if IsBlank(q.explanation) { problems := problems + [BlankExplanation(q.id)]; }
    var more := ValidateOptions(q);
    problems := problems + more;
  }

  /** A bank without problems is exactly one whose questions the room can grade, under distinct ids. */
  method ValidateQuestions(questions: seq<Question>) returns (problems: seq<Problem>)
    ensures problems == [] <==> ValidBank(questions)
  {
    problems := [];
    var seen: set<QuestionId> := {};
    for i := 0 to |questions|
      invariant seen == set j | 0 <= j < i :: questions[j].id
      invariant problems == [] <==> ValidBank(questions[..i])
    {
      var q := questions[i];
      assert questions[..i + 1] == questions[..i] + [q];
      ValidBankAppend(questions[..i], q);
      assert q.id in seen <==> exists j :: 0 <= j < i && questions[..i][j].id == q.id;
      if q.id in seen { problems := problems + [DuplicateId(q.id)]; }
      seen := seen + {q.id};
      var more := ValidateQuestion(q);
      problems := problems + more;
    }
    assert questions[..|questions|] == questions;
  }
}
