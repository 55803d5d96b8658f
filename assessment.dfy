/**
 * The assessment logic of the questionnaire: the question bank, the scoring
 * of Likert answers into per-trait totals with a primary and a secondary
 * trait per taxonomy, and the completion gate in front of the submit
 * button.
 */
module Assessment {
  import opened Text
  import opened EntrySort

  /** The two taxonomies a question belongs to (its `kind`). */
  datatype Kind = Communication | Motivation

  /** The eight trait keys, four communication styles and four motivation drivers. */
  datatype Trait =
    | Director | Encourager | Facilitator | Tracker
    | Growth | Purpose | Connection | Achievement

  /** The key string the app uses for a trait. */
  function Name(t: Trait): string
  {
    match t
    case Director => "Director"
    case Encourager => "Encourager"
    case Facilitator => "Facilitator"
    case Tracker => "Tracker"
    case Growth => "Growth"
    case Purpose => "Purpose"
    case Connection => "Connection"
    case Achievement => "Achievement"
  }

  function KindOf(t: Trait): Kind
  {
    if t in {Director, Encourager, Facilitator, Tracker} then Communication else Motivation
  }

  /** A trait's position in its taxonomy's declaration order. */
  function Rank(t: Trait): nat
  {
    match t
    case Director => 0
    case Encourager => 1
    case Facilitator => 2
    case Tracker => 3
    case Growth => 0
    case Purpose => 1
    case Connection => 2
    case Achievement => 3
  }

  const COMM_KEYS: seq<Trait> := [Director, Encourager, Facilitator, Tracker]
  const MOTIV_KEYS: seq<Trait> := [Growth, Purpose, Connection, Achievement]

  /** The key order of a taxonomy, which is also the insertion order of its totals object. */
  function KeysOf(kind: Kind): (keys: seq<Trait>)
  {
    if kind == Communication then COMM_KEYS else MOTIV_KEYS
  }

  /** Each taxonomy lists its four traits once each, in rank order. */
  lemma KeysOfShape(kind: Kind)
    ensures |KeysOf(kind)| == 4
    ensures RankOrdered(KeysOf(kind))
    ensures forall k :: 0 <= k < 4 ==> KindOf(KeysOf(kind)[k]) == kind
    ensures forall t :: t in KeysOf(kind) <==> KindOf(t) == kind
  {
    forall t ensures t in KeysOf(kind) <==> KindOf(t) == kind {
      match t
      case Director =>
      case Encourager =>
      case Facilitator =>
      case Tracker =>
      case Growth =>
      case Purpose =>
      case Connection =>
      case Achievement =>
    }
  }

  datatype Question = Question(id: string, kind: Kind, key: Trait, text: string)

  /** The fixed question bank, in declaration order. */
  const QUESTIONS: seq<Question> := [
    Question("C1", Communication, Director, "I make decisions quickly and keep projects moving."),
    Question("C2", Communication, Director, "I’m comfortable taking charge when direction is unclear."),
    Question("C3", Communication, Director, "I prioritize results over lengthy discussion."),
    Question("C4", Communication, Encourager, "I energize conversations and get people involved."),
    Question("C5", Communication, Encourager, "I enjoy brainstorming aloud and sharing ideas freely."),
    Question("C6", Communication, Encourager, "I build enthusiasm and morale on the team."),
    Question("C7", Communication, Facilitator, "I ensure everyone has a chance to be heard."),
    Question("C8", Communication, Facilitator, "I remain calm and patient during tense discussions."),
    Question("C9", Communication, Facilitator, "I focus on steady progress and team harmony."),
    Question("C10", Communication, Tracker, "I double-check details to prevent errors."),
    Question("C11", Communication, Tracker, "I prefer clear processes and documented decisions."),
    Question("C12", Communication, Tracker, "I’m thorough, even if it takes extra time."),
    Question("M1", Motivation, Growth, "Learning new skills keeps me engaged at work."),
    Question("M2", Motivation, Growth, "I seek stretch assignments that grow my capabilities."),
    Question("M3", Motivation, Growth, "I value feedback because it helps me improve."),
    Question("M4", Motivation, Purpose, "It’s important that my work aligns with my values."),
    Question("M5", Motivation, Purpose, "I’m motivated by making a positive impact for others."),
    Question("M6", Motivation, Purpose, "Ethics and integrity guide how I approach tasks."),
    Question("M7", Motivation, Connection, "I thrive when I feel supported by my team."),
    Question("M8", Motivation, Connection, "I’m most energized when collaboration is strong."),
    Question("M9", Motivation, Connection, "Recognition from peers means a lot to me."),
    Question("M10", Motivation, Achievement, "Meeting clear goals gives me momentum."),
    Question("M11", Motivation, Achievement, "I like tracking progress and checking things off."),
    Question("M12", Motivation, Achievement, "I’m driven by results and tangible outcomes.")
  ]

  /** The Likert scale every answer is taken from. */
  const LIKERT: seq<int> := [1, 2, 3, 4, 5]

  /** The largest total a trait can reach: three questions answered 5 (`3 * 5`). */
  const MAX_TRAIT_TOTAL: int := 3 * 5

  /** Answers keyed by question id; an absent key is an unanswered question. */
  type Answers = map<string, int>

  /** `answers[id] || 0`. */
  function AnswerOf(answers: Answers, id: string): int
  {
    if id in answers then answers[id] else 0
  }

  /** What one question adds to the total of `t` in taxonomy `kind`. */
  function Contribution(q: Question, answers: Answers, kind: Kind, t: Trait): int
  {
    if q.kind == kind && q.key == t then AnswerOf(answers, q.id) else 0
  }

  /** The sum of the answers to the questions of `qs` tagged (`kind`, `t`). */
  function TraitSum(qs: seq<Question>, answers: Answers, kind: Kind, t: Trait): int
  {
    if qs == [] then 0
    else TraitSum(qs[..|qs| - 1], answers, kind, t) + Contribution(qs[|qs| - 1], answers, kind, t)
  }

  /** The number of questions of `qs` tagged (`kind`, `t`). */
  function CountTagged(qs: seq<Question>, kind: Kind, t: Trait): nat
  {
    if qs == [] then 0
    else
      var q := qs[|qs| - 1];
      CountTagged(qs[..|qs| - 1], kind, t) + (if q.kind == kind && q.key == t then 1 else 0)
  }

  /** The sum of the answers to all questions of `qs` in taxonomy `kind`. */
  function KindSum(qs: seq<Question>, answers: Answers, kind: Kind): int
  {
    if qs == [] then 0
    else
      var q := qs[|qs| - 1];
      KindSum(qs[..|qs| - 1], answers, kind) + (if q.kind == kind then AnswerOf(answers, q.id) else 0)
  }

  /** The totals object of a taxonomy after tallying `qs`. */
  function Totals(qs: seq<Question>, answers: Answers, kind: Kind): (m: map<Trait, int>)
  {
    map t | t in KeysOf(kind) :: TraitSum(qs, answers, kind, t)
  }

  /** `Object.entries(m)` for an object whose keys were inserted in the order `keys`. */
  function Entries(keys: seq<Trait>, m: map<Trait, int>): (e: seq<(Trait, int)>)
    requires forall t :: t in keys ==> t in m
    ensures |e| == |keys|
    ensures forall k :: 0 <= k < |keys| ==> e[k] == (keys[k], m[keys[k]])
  {
    seq(|keys|, k requires 0 <= k < |keys| => (keys[k], m[keys[k]]))
  }

  /** The result of `computeScores`. */
  datatype Scores = Scores(
    comm: map<Trait, int>,
    motiv: map<Trait, int>,
    primaryComm: Trait,
    secondaryComm: Trait,
    primaryMotiv: Trait,
    secondaryMotiv: Trait)

  /** The scores as a function of the answers, the specification of ComputeScores. */
  function ScoreOf(answers: Answers): Scores
  {
    var comm := Totals(QUESTIONS, answers, Communication);
    var motiv := Totals(QUESTIONS, answers, Motivation);
    var commSorted := SortDesc(Entries(COMM_KEYS, comm));
    var motivSorted := SortDesc(Entries(MOTIV_KEYS, motiv));
    Scores(comm, motiv, commSorted[0].0, commSorted[1].0, motivSorted[0].0, motivSorted[1].0)
  }

  /**
   * `p` and `s` are what a descending sort of `keys` by total, with ties kept
   * in declaration order, puts first and second: `p` has the largest total and
   * is the earliest trait holding it; `s` is the same among the others.
   */
  ghost predicate Ranked(keys: seq<Trait>, totals: map<Trait, int>, p: Trait, s: Trait)
  {
    && (forall t :: t in keys ==> t in totals)
    && p in keys && s in keys && p != s
    && (forall t :: t in keys ==>
          totals[t] < totals[p] || (totals[t] == totals[p] && Rank(p) <= Rank(t)))
    && (forall t :: t in keys && t != p ==>
          totals[t] < totals[s] || (totals[t] == totals[s] && Rank(s) <= Rank(t)))
  }

  /** Every question's key belongs to the taxonomy named by its kind. */
  ghost predicate Consistent(qs: seq<Question>)
  {
    forall k :: 0 <= k < |qs| ==> qs[k].key in KeysOf(qs[k].kind)
  }

  /** Where a trait's three questions start in the bank. */
  function Start(t: Trait): nat
  {
    (if KindOf(t) == Communication then 0 else 12) + 3 * Rank(t)
  }

  /** The bank is laid out trait by trait, three questions each. */
  lemma BankLayout()
    ensures |QUESTIONS| == 24
    ensures forall i :: 0 <= i < |QUESTIONS| ==>
      QUESTIONS[i].kind == KindOf(QUESTIONS[i].key)
      && Start(QUESTIONS[i].key) <= i < Start(QUESTIONS[i].key) + 3
  {
  }

  /** Distinct traits own disjoint blocks of the bank. */
  lemma StartBlocksDisjoint(a: Trait, b: Trait, i: int)
    requires Start(a) <= i < Start(a) + 3 && Start(b) <= i < Start(b) + 3
    ensures a == b
  {
    assert Start(a) / 3 == Start(b) / 3;
  }

  lemma CountTaggedStep(qs: seq<Question>, n: nat, kind: Kind, t: Trait)
    requires n < |qs|
    ensures CountTagged(qs[..n + 1], kind, t)
      == CountTagged(qs[..n], kind, t) + (if qs[n].kind == kind && qs[n].key == t then 1 else 0)
  {
    assert qs[..n + 1][..n] == qs[..n];
  }

  lemma {:induction false} BankCountUpTo(n: nat, t: Trait)
    requires n <= |QUESTIONS|
    ensures CountTagged(QUESTIONS[..n], KindOf(t), t)
      == if n <= Start(t) then 0 else if n >= Start(t) + 3 then 3 else n - Start(t)
  {
    if n > 0 {
      BankLayout();
      BankCountUpTo(n - 1, t);
      CountTaggedStep(QUESTIONS, n - 1, KindOf(t), t);
      var q := QUESTIONS[n - 1];
      if Start(t) <= n - 1 < Start(t) + 3 {
        StartBlocksDisjoint(q.key, t, n - 1);
      }
    }
  }

  /**
   * The bank holds 24 questions with distinct ids, every key belongs to its
   * kind, and each trait is asked about exactly three times.
   */
  lemma QuestionBankShape()
    ensures |QUESTIONS| == 24
    ensures Consistent(QUESTIONS)
    ensures forall i, j :: 0 <= i < j < |QUESTIONS| ==> QUESTIONS[i].id != QUESTIONS[j].id
    ensures forall t :: CountTagged(QUESTIONS, KindOf(t), t) == 3
  {
    BankConsistent();
    BankIdsDistinct();
    forall t ensures CountTagged(QUESTIONS, KindOf(t), t) == 3 {
      TraitQuestionCount(t);
    }
  }

  lemma BankConsistent()
    ensures Consistent(QUESTIONS)
  {
  }

  lemma BankIdsDistinct()
    ensures forall i, j :: 0 <= i < j < |QUESTIONS| ==> QUESTIONS[i].id != QUESTIONS[j].id
  {
  }

  lemma TraitQuestionCount(t: Trait)
    ensures CountTagged(QUESTIONS, KindOf(t), t) == 3
  {
    BankCountUpTo(24, t);
    assert QUESTIONS[..24] == QUESTIONS;
  }

  /** The sum of `m` over `keys`. */
  function SumOver(keys: seq<Trait>, m: map<Trait, int>): int
    requires forall t :: t in keys ==> t in m
  {
    if keys == [] then 0 else m[keys[0]] + SumOver(keys[1..], m)
  }

  lemma {:induction false} SumOverFour(keys: seq<Trait>, m: map<Trait, int>)
    requires |keys| == 4 && forall t :: t in keys ==> t in m
    ensures SumOver(keys, m) == m[keys[0]] + m[keys[1]] + m[keys[2]] + m[keys[3]]
  {
    var k1 := keys[1..];
    var k2 := k1[1..];
    var k3 := k2[1..];
    assert k3[1..] == [];
    assert SumOver(k3, m) == m[keys[3]];
    assert SumOver(k2, m) == m[keys[2]] + SumOver(k3, m);
    assert SumOver(k1, m) == m[keys[1]] + SumOver(k2, m);
  }

  lemma {:induction false} TraitSumBounds(qs: seq<Question>, answers: Answers, kind: Kind, t: Trait)
    requires forall k :: 0 <= k < |qs| ==> qs[k].id in answers && 1 <= answers[qs[k].id] <= 5
    ensures CountTagged(qs, kind, t) <= TraitSum(qs, answers, kind, t) <= 5 * CountTagged(qs, kind, t)
  {
    if qs != [] {
      TraitSumBounds(qs[..|qs| - 1], answers, kind, t);
    }
  }

  lemma {:induction false} TraitSumUniform(qs: seq<Question>, answers: Answers, kind: Kind, t: Trait, v: int)
    requires forall k :: 0 <= k < |qs| ==> AnswerOf(answers, qs[k].id) == v
    ensures TraitSum(qs, answers, kind, t) == v * CountTagged(qs, kind, t)
  {
    if qs != [] {
      TraitSumUniform(qs[..|qs| - 1], answers, kind, t, v);
    }
  }

  /** The per-trait totals of a taxonomy add up to the sum of that taxonomy's answers. */
  lemma {:induction false} CategorySum(qs: seq<Question>, answers: Answers, kind: Kind)
    requires Consistent(qs)
    ensures SumOver(KeysOf(kind), Totals(qs, answers, kind)) == KindSum(qs, answers, kind)
  {
    KeysOfShape(kind);
    if qs == [] {
      SumOverFour(KeysOf(kind), Totals(qs, answers, kind));
    } else {
      var front, q := qs[..|qs| - 1], qs[|qs| - 1];
      assert qs == front + [q];
      assert Consistent(front);
      CategorySum(front, answers, kind);
      CategoryStep(front, q, answers, kind);
    }
  }

  /** Adding one question adds its answer to the sum of its own kind's totals, and nothing to the other's. */
  lemma CategoryStep(front: seq<Question>, q: Question, answers: Answers, kind: Kind)
    requires q.key in KeysOf(q.kind)
    ensures SumOver(KeysOf(kind), Totals(front + [q], answers, kind))
      == SumOver(KeysOf(kind), Totals(front, answers, kind)) + (if q.kind == kind then AnswerOf(answers, q.id) else 0)
  {
    var keys := KeysOf(kind);
    KeysOfShape(kind);
    SumOverFour(keys, Totals(front + [q], answers, kind));
    SumOverFour(keys, Totals(front, answers, kind));
    forall t | t in keys
      ensures TraitSum(front + [q], answers, kind, t) == TraitSum(front, answers, kind, t) + Contribution(q, answers, kind, t)
    {
      TraitSumSnoc(front, q, answers, kind, t);
    }
    ContributionsSum(q, answers, kind);
  }

  /** Over the four traits of a taxonomy, a question contributes its answer once, and only to its own kind. */
  lemma ContributionsSum(q: Question, answers: Answers, kind: Kind)
    requires q.key in KeysOf(q.kind)
    ensures var k := KeysOf(kind);
      Contribution(q, answers, kind, k[0]) + Contribution(q, answers, kind, k[1])
      + Contribution(q, answers, kind, k[2]) + Contribution(q, answers, kind, k[3])
      == if q.kind == kind then AnswerOf(answers, q.id) else 0
  {
  }

  /** Keys listed in rank order: a listed trait sits at the index of its rank. */
  ghost predicate RankOrdered(keys: seq<Trait>)
  {
    forall k :: 0 <= k < |keys| ==> Rank(keys[k]) == k
  }

  lemma RankIndex(keys: seq<Trait>, t: Trait)
    requires RankOrdered(keys) && t in keys
    ensures Rank(t) < |keys| && keys[Rank(t)] == t
  {
    var k :| 0 <= k < |keys| && keys[k] == t;
  }

  /** The first entry of largest total beats every trait, and wins ties by rank. */
  lemma {:induction false} PrimaryRanked(keys: seq<Trait>, totals: map<Trait, int>)
    requires |keys| >= 1 && RankOrdered(keys)
    requires forall t :: t in keys ==> t in totals
    ensures var p := keys[FirstMaxIndex(Entries(keys, totals))];
      forall t :: t in keys ==> totals[t] < totals[p] || (totals[t] == totals[p] && Rank(p) <= Rank(t))
  {
    var e := Entries(keys, totals);
    var i := FirstMaxIndex(e);
    FirstMaxIndexIsFirstMax(e);
    forall t | t in keys
      ensures totals[t] < totals[keys[i]] || (totals[t] == totals[keys[i]] && Rank(keys[i]) <= Rank(t))
    {
      RankIndex(keys, t);
      assert e[Rank(t)].1 <= e[i].1;
    }
  }

  /** Among the other traits, the first entry of largest total wins in the same way. */
  lemma {:induction false} SecondaryRanked(keys: seq<Trait>, totals: map<Trait, int>, i: nat)
    requires |keys| >= 2 && RankOrdered(keys) && i < |keys|
    requires forall t :: t in keys ==> t in totals
    ensures var r := RemoveAt(Entries(keys, totals), i);
      var j := FirstMaxIndex(r);
      var s := keys[if j < i then j else j + 1];
      && r[j].0 == s && s != keys[i]
      && forall t :: t in keys && t != keys[i] ==>
           totals[t] < totals[s] || (totals[t] == totals[s] && Rank(s) <= Rank(t))
  {
    var e := Entries(keys, totals);
    var r := RemoveAt(e, i);
    var j := FirstMaxIndex(r);
    FirstMaxIndexIsFirstMax(r);
    var js := if j < i then j else j + 1;
    assert r[j] == e[js];
    var s := keys[js];
    forall t | t in keys && t != keys[i]
      ensures totals[t] < totals[s] || (totals[t] == totals[s] && Rank(s) <= Rank(t))
    {
      RankIndex(keys, t);
      var k := Rank(t);
      var m := if k < i then k else k - 1;
      assert r[m] == e[k];
      assert r[m].1 <= r[j].1;
    }
  }

  /**
   * The first two entries of the stable descending sort of a taxonomy's totals
   * are the primary and secondary traits that Ranked describes.
   */
  lemma {:induction false} FirstTwoRanked(keys: seq<Trait>, totals: map<Trait, int>)
    requires |keys| >= 2 && RankOrdered(keys)
    requires forall t :: t in keys ==> t in totals
    ensures Ranked(keys, totals, SortDesc(Entries(keys, totals))[0].0, SortDesc(Entries(keys, totals))[1].0)
  {
    var e := Entries(keys, totals);
    var i := FirstMaxIndex(e);
    SortDescHead(e);
    var r := RemoveAt(e, i);
    SortDescHead(r);
    PrimaryRanked(keys, totals);
    SecondaryRanked(keys, totals, i);
  }

  /** At most one pair of traits is ranked first and second: the ranking is deterministic. */
  lemma {:induction false} RankedUnique(keys: seq<Trait>, totals: map<Trait, int>, p: Trait, s: Trait, p': Trait, s': Trait)
    requires RankOrdered(keys)
    requires Ranked(keys, totals, p, s) && Ranked(keys, totals, p', s')
    ensures p == p' && s == s'
  {
    RankIndex(keys, p);
    RankIndex(keys, p');
    RankIndex(keys, s);
    RankIndex(keys, s');
  }

  /** The scores ScoreOf computes satisfy the ranking specification in both taxonomies. */
  lemma ScoreRanking(answers: Answers)
    ensures Ranked(COMM_KEYS, ScoreOf(answers).comm, ScoreOf(answers).primaryComm, ScoreOf(answers).secondaryComm)
    ensures Ranked(MOTIV_KEYS, ScoreOf(answers).motiv, ScoreOf(answers).primaryMotiv, ScoreOf(answers).secondaryMotiv)
  {
    KeysOfShape(Communication);
    KeysOfShape(Motivation);
    FirstTwoRanked(COMM_KEYS, Totals(QUESTIONS, answers, Communication));
    FirstTwoRanked(MOTIV_KEYS, Totals(QUESTIONS, answers, Motivation));
  }

  lemma TotalsEmpty(answers: Answers)
    ensures Totals([], answers, Communication) == map[Director := 0, Encourager := 0, Facilitator := 0, Tracker := 0]
    ensures Totals([], answers, Motivation) == map[Growth := 0, Purpose := 0, Connection := 0, Achievement := 0]
  {
  }

  lemma TraitSumSnoc(qs: seq<Question>, q: Question, answers: Answers, kind: Kind, t: Trait)
    ensures TraitSum(qs + [q], answers, kind, t) == TraitSum(qs, answers, kind, t) + Contribution(q, answers, kind, t)
  {
    assert (qs + [q])[..|qs|] == qs;
  }

  /** Adding one more question adds its answer to its own trait's total... */
  lemma TotalsStepOwn(qs: seq<Question>, q: Question, answers: Answers)
    requires q.key in KeysOf(q.kind)
    ensures var m := Totals(qs, answers, q.kind);
      Totals(qs + [q], answers, q.kind) == m[q.key := m[q.key] + AnswerOf(answers, q.id)]
  {
    var m := Totals(qs, answers, q.kind);
    var m' := Totals(qs + [q], answers, q.kind);
    var expected := m[q.key := m[q.key] + AnswerOf(answers, q.id)];
    forall t | t in KeysOf(q.kind) ensures m'[t] == expected[t] {
      TraitSumSnoc(qs, q, answers, q.kind, t);
    }
    assert m'.Keys == expected.Keys;
  }

  /** ...and leaves the other taxonomy's totals as they were. */
  lemma TotalsStepOther(qs: seq<Question>, q: Question, answers: Answers, kind: Kind)
    requires kind != q.kind
    ensures Totals(qs + [q], answers, kind) == Totals(qs, answers, kind)
  {
    var m := Totals(qs, answers, kind);
    var m' := Totals(qs + [q], answers, kind);
    forall t | t in KeysOf(kind) ensures m'[t] == m[t] {
      TraitSumSnoc(qs, q, answers, kind, t);
    }
    assert m'.Keys == m.Keys;
  }

  /** What ScoreOf promises: each total is its trait's tally and each taxonomy is ranked. */
  lemma ScoreOfSpec(answers: Answers)
    ensures forall t :: t in COMM_KEYS ==> t in ScoreOf(answers).comm && ScoreOf(answers).comm[t] == TraitSum(QUESTIONS, answers, Communication, t)
    ensures forall t :: t in MOTIV_KEYS ==> t in ScoreOf(answers).motiv && ScoreOf(answers).motiv[t] == TraitSum(QUESTIONS, answers, Motivation, t)
    ensures Ranked(COMM_KEYS, ScoreOf(answers).comm, ScoreOf(answers).primaryComm, ScoreOf(answers).secondaryComm)
    ensures Ranked(MOTIV_KEYS, ScoreOf(answers).motiv, ScoreOf(answers).primaryMotiv, ScoreOf(answers).secondaryMotiv)
  {
    ScoreRanking(answers);
  }

  /**
   * `totals[t] += v`: add `v` to the entry of `t`. Totals objects start with an
   * entry for every trait of their taxonomy, and every question's key is a
   * trait of its kind, so the entry is always there.
   */
  function AddTo(m: map<Trait, int>, t: Trait, v: int): (r: map<Trait, int>)
    requires t in m
    ensures r.Keys == m.Keys
    ensures r[t] == m[t] + v
    ensures forall u :: u in m && u != t ==> r[u] == m[u]
  {
    m[t := m[t] + v]
  }

  /** The keys of a taxonomy's totals object. */
  function KeySet(kind: Kind): set<Trait>
  {
    if kind == Communication then {Director, Encourager, Facilitator, Tracker}
    else {Growth, Purpose, Connection, Achievement}
  }

  /**
   * The totals as the tally loop holds them after its first `n` questions:
   * each answer is added to its own trait's entry.
   */
  function Running(qs: seq<Question>, n: nat, answers: Answers, kind: Kind): (m: map<Trait, int>)
    requires Consistent(qs) && n <= |qs|
    ensures m.Keys == KeySet(kind)
  {
    if n == 0 then (if kind == Communication then map[Director := 0, Encourager := 0, Facilitator := 0, Tracker := 0]
                    else map[Growth := 0, Purpose := 0, Connection := 0, Achievement := 0])
    else
      var m := Running(qs, n - 1, answers, kind);
      var q := qs[n - 1];
      if q.kind == kind then AddTo(m, q.key, AnswerOf(answers, q.id)) else m
  }

  /** Accumulating question by question gives each trait the sum of its own questions. */
  lemma {:induction false} RunningIsTotals(qs: seq<Question>, n: nat, answers: Answers, kind: Kind)
    requires Consistent(qs) && n <= |qs|
    ensures Running(qs, n, answers, kind) == Totals(qs[..n], answers, kind)
  {
    if n == 0 {
      assert qs[..0] == [];
      TotalsEmpty(answers);
    } else {
      var prev, q := qs[..n - 1], qs[n - 1];
      assert q.key in KeysOf(q.kind);
      RunningIsTotals(qs, n - 1, answers, kind);
      RunningStep(prev, q, answers, kind);
      assert qs[..n] == prev + [q];
    }
  }

  /** One step of the loop turns the totals of `prev` into those of `prev + [q]`. */
  lemma RunningStep(prev: seq<Question>, q: Question, answers: Answers, kind: Kind)
    requires q.key in KeysOf(q.kind)
    ensures var m := Totals(prev, answers, kind);
      (q.kind == kind ==> q.key in m)
      && (if q.kind == kind then AddTo(m, q.key, AnswerOf(answers, q.id)) else m) == Totals(prev + [q], answers, kind)
  {
    if q.kind == kind {
      TotalsStepOwn(prev, q, answers);
    } else {
      TotalsStepOther(prev, q, answers, kind);
    }
  }

  /**
   * The `forEach` of `computeScores`: starting from zero totals, add each
   * question's answer (0 when unanswered) to its trait in the totals object
   * of its kind.
   */
  method TallyAnswers(qs: seq<Question>, answers: Answers) returns (comm: map<Trait, int>, motiv: map<Trait, int>)
    requires Consistent(qs)
    ensures comm == Running(qs, |qs|, answers, Communication)
    ensures motiv == Running(qs, |qs|, answers, Motivation)
  {
    comm := map[Director := 0, Encourager := 0, Facilitator := 0, Tracker := 0];
    motiv := map[Growth := 0, Purpose := 0, Connection := 0, Achievement := 0];
    var i := 0;
    while i < |qs|
      invariant 0 <= i <= |qs|
      invariant comm == Running(qs, i, answers, Communication)
      invariant motiv == Running(qs, i, answers, Motivation)
    {
      comm, motiv := Record(qs, i, answers, comm, motiv);
      i := i + 1;
    }
  }

  /**
   * The body of the `forEach`: add the answer to question `i` (0 when
   * unanswered) to its trait's entry in the totals of its kind.
   */
  method Record(qs: seq<Question>, i: nat, answers: Answers, comm: map<Trait, int>, motiv: map<Trait, int>)
    returns (comm': map<Trait, int>, motiv': map<Trait, int>)
    requires Consistent(qs) && i < |qs|
    requires comm == Running(qs, i, answers, Communication) && motiv == Running(qs, i, answers, Motivation)
    ensures comm' == Running(qs, i + 1, answers, Communication)
    ensures motiv' == Running(qs, i + 1, answers, Motivation)
  {
    var q := qs[i];
    var val := AnswerOf(answers, q.id);
    assert q.key in KeySet(q.kind);
    if q.kind == Communication {
      comm', motiv' := AddTo(comm, q.key, val), motiv;
    } else {
      comm', motiv' := comm, AddTo(motiv, q.key, val);
    }
  }

  /**
   * `computeScores`: tally every question of the bank into its trait's total,
   * then rank each taxonomy by a stable descending sort of its entries.
   */
  method ComputeScores(answers: Answers) returns (s: Scores)
    ensures s == ScoreOf(answers)
    ensures forall t :: t in COMM_KEYS ==> t in s.comm && s.comm[t] == TraitSum(QUESTIONS, answers, Communication, t)
    ensures forall t :: t in MOTIV_KEYS ==> t in s.motiv && s.motiv[t] == TraitSum(QUESTIONS, answers, Motivation, t)
    ensures Ranked(COMM_KEYS, s.comm, s.primaryComm, s.secondaryComm)
    ensures Ranked(MOTIV_KEYS, s.motiv, s.primaryMotiv, s.secondaryMotiv)
  {
    BankConsistent();
    var comm, motiv := TallyAnswers(QUESTIONS, answers);
    BankRunningIsTotals(answers);
    var commSorted := SortDesc(Entries(COMM_KEYS, comm));
    var motivSorted := SortDesc(Entries(MOTIV_KEYS, motiv));
    s := Scores(comm, motiv, commSorted[0].0, commSorted[1].0, motivSorted[0].0, motivSorted[1].0);
    ScoreOfSpec(answers);
  }

  /** Over the whole bank, the loop's final totals are the per-trait sums. */
  lemma BankRunningIsTotals(answers: Answers)
    requires Consistent(QUESTIONS)
    ensures Running(QUESTIONS, |QUESTIONS|, answers, Communication) == Totals(QUESTIONS, answers, Communication)
    ensures Running(QUESTIONS, |QUESTIONS|, answers, Motivation) == Totals(QUESTIONS, answers, Motivation)
  {
    RunningIsTotals(QUESTIONS, |QUESTIONS|, answers, Communication);
    RunningIsTotals(QUESTIONS, |QUESTIONS|, answers, Motivation);
    assert QUESTIONS[..|QUESTIONS|] == QUESTIONS;
  }

  /** Every question of the bank has an answer on the Likert scale. */
  ghost predicate LikertComplete(answers: Answers)
  {
    forall k :: 0 <= k < |QUESTIONS| ==> QUESTIONS[k].id in answers && answers[QUESTIONS[k].id] in LIKERT
  }

  /**
   * With every question answered on the scale, each trait's total lies between
   * 3 (three answers of 1) and MAX_TRAIT_TOTAL (three answers of 5).
   */
  lemma ScoreBounds(answers: Answers, t: Trait)
    requires LikertComplete(answers)
    ensures var s := ScoreOf(answers);
      var totals := if KindOf(t) == Communication then s.comm else s.motiv;
      t in totals && 3 <= totals[t] <= MAX_TRAIT_TOTAL
  {
    KeysOfShape(KindOf(t));
    TraitQuestionCount(t);
    TraitSumBounds(QUESTIONS, answers, KindOf(t), t);
  }

  /** In each taxonomy the trait totals add up to the sum of that taxonomy's answers. */
  lemma ScoreCategorySums(answers: Answers)
    ensures SumOver(COMM_KEYS, ScoreOf(answers).comm) == KindSum(QUESTIONS, answers, Communication)
    ensures SumOver(MOTIV_KEYS, ScoreOf(answers).motiv) == KindSum(QUESTIONS, answers, Motivation)
  {
    BankConsistent();
    CategorySum(QUESTIONS, answers, Communication);
    CategorySum(QUESTIONS, answers, Motivation);
  }

  /** Four equal totals rank in declaration order: the first two keys win. */
  lemma {:induction false} TiedRanked(keys: seq<Trait>, totals: map<Trait, int>, v: int)
    requires |keys| == 4 && RankOrdered(keys)
    requires forall t :: t in keys ==> t in totals && totals[t] == v
    ensures Ranked(keys, totals, keys[0], keys[1])
  {
    forall t | t in keys ensures Rank(keys[0]) <= Rank(t) {
      RankIndex(keys, t);
    }
    forall t | t in keys && t != keys[0] ensures Rank(keys[1]) <= Rank(t) {
      RankIndex(keys, t);
    }
  }

  /**
   * When every question gets the same answer `v`, every total is `3 * v` and
   * declaration order breaks the ties: Director and Encourager, Growth and Purpose.
   */
  lemma UniformAnswersRanking(answers: Answers, v: int)
    requires forall k :: 0 <= k < |QUESTIONS| ==> AnswerOf(answers, QUESTIONS[k].id) == v
    ensures forall t :: t in COMM_KEYS ==> t in ScoreOf(answers).comm && ScoreOf(answers).comm[t] == 3 * v
    ensures forall t :: t in MOTIV_KEYS ==> t in ScoreOf(answers).motiv && ScoreOf(answers).motiv[t] == 3 * v
    ensures ScoreOf(answers).primaryComm == Director && ScoreOf(answers).secondaryComm == Encourager
    ensures ScoreOf(answers).primaryMotiv == Growth && ScoreOf(answers).secondaryMotiv == Purpose
  {
    var s := ScoreOf(answers);
    KeysOfShape(Communication);
    KeysOfShape(Motivation);
    forall t | t in COMM_KEYS || t in MOTIV_KEYS
      ensures TraitSum(QUESTIONS, answers, KindOf(t), t) == 3 * v
    {
      TraitQuestionCount(t);
      TraitSumUniform(QUESTIONS, answers, KindOf(t), t, v);
    }
    TiedRanked(COMM_KEYS, s.comm, 3 * v);
    TiedRanked(MOTIV_KEYS, s.motiv, 3 * v);
    ScoreRanking(answers);
    RankedUnique(COMM_KEYS, s.comm, Director, Encourager, s.primaryComm, s.secondaryComm);
    RankedUnique(MOTIV_KEYS, s.motiv, Growth, Purpose, s.primaryMotiv, s.secondaryMotiv);
  }

  /**
   * `allAnswered`: every question of the bank has an answer, and the name and
   * the email are not blank once trimmed.
   */
  function AllAnswered(answers: Answers, name: string, email: string): (ok: bool)
    ensures ok <==>
      (forall q :: q in QUESTIONS ==> q.id in answers)
      && (exists k :: 0 <= k < |name| && !IsJsWhitespace(name[k]))
      && (exists k :: 0 <= k < |email| && !IsJsWhitespace(email[k]))
  {
    TrimEmpty(name);
    TrimEmpty(email);
    (forall q :: q in QUESTIONS ==> q.id in answers) && Trim(name) != [] && Trim(email) != []
  }
}
