/**
 * The lookup side of the results page: the role label and the role
 * substitution applied to every piece of narrative copy, and the keys of the
 * style, combination and integrated-profile tables together with the keys
 * the app builds to index them.
 */
module Content {
  import opened Text
  import opened Assessment

  /** The values of the role selector, in display order; the first is the default. */
  const ROLE_OPTIONS: seq<string> := ["Program Supervisor", "Shift Supervisor", "YDP"]

  /** `role || "Program Supervisor"`: an empty role falls back to the default wording. */
  function RoleLabel(role: string): (shown: string)
    ensures shown != []
    ensures role != [] ==> shown == role
    ensures role == [] ==> shown == ROLE_OPTIONS[0]
  {
    if role == [] then "Program Supervisor" else role
  }

  const ELMCREST_PHRASE: string := "Elmcrest Program Supervisor"
  const PHRASE: string := "Program Supervisor"

  /**
   * `roleize`: empty copy stays empty; otherwise every "Elmcrest Program
   * Supervisor" becomes "<role> at Elmcrest", and then every remaining
   * "Program Supervisor" becomes the role.
   */
  function Roleize(text: string, roleLabel: string): string
  {
    if text == [] then []
    else ReplaceAll(ReplaceAll(text, ELMCREST_PHRASE, roleLabel + " at Elmcrest"), PHRASE, roleLabel)
  }

  /** A match found at position `i` is an occurrence. */
  lemma {:induction false} OccursAt(s: string, pat: string, i: nat)
    requires i + |pat| <= |s| && s[i..i + |pat|] == pat
    ensures Occurs(s, pat)
    decreases i
  {
    if i > 0 {
      assert s[1..][i - 1..i - 1 + |pat|] == s[i..i + |pat|];
      OccursAt(s[1..], pat, i - 1);
    }
  }

  /** An occurrence of `a + b` contains an occurrence of `b`. */
  lemma {:induction false} OccursSuffix(s: string, a: string, b: string)
    requires Occurs(s, a + b)
    ensures Occurs(s, b)
    decreases |s|
  {
    var pat := a + b;
    if s[..|pat|] == pat {
      assert s[|a|..|a| + |b|] == pat[|a|..];
      OccursAt(s, b, |a|);
    } else {
      OccursSuffix(s[1..], a, b);
      assert s[1..][..|b|] == s[1..1 + |b|];
      if s[1..][..|b|] == b {
        OccursAt(s, b, 1);
      } else {
        OccursShift(s, b);
      }
    }
  }

  /** An occurrence in the tail of `s` is an occurrence in `s`. */
  lemma OccursShift(s: string, b: string)
    requires |s| > 0 && Occurs(s[1..], b)
    ensures Occurs(s, b)
  {
  }

  /** Copy that never mentions "Program Supervisor" comes back unchanged. */
  lemma RoleizeNoPlaceholder(text: string, roleLabel: string)
    requires !Occurs(text, PHRASE)
    ensures Roleize(text, roleLabel) == text
  {
    if text != [] {
      assert ELMCREST_PHRASE == "Elmcrest " + PHRASE;
      if Occurs(text, ELMCREST_PHRASE) {
        OccursSuffix(text, "Elmcrest ", PHRASE);
      }
      ReplaceAllNoMatch(text, ELMCREST_PHRASE, roleLabel + " at Elmcrest");
      ReplaceAllNoMatch(text, PHRASE, roleLabel);
    }
  }

  /**
   * The longer phrase is rewritten first: "Elmcrest Program Supervisor" alone
   * becomes "<role> at Elmcrest", whenever that text does not itself bring
   * back "Program Supervisor" for the second pass.
   */
  lemma RoleizeElmcrestPhrase(roleLabel: string)
    requires !Occurs(roleLabel + " at Elmcrest", PHRASE)
    ensures Roleize(ELMCREST_PHRASE, roleLabel) == roleLabel + " at Elmcrest"
  {
    ReplaceAllWhole(ELMCREST_PHRASE, roleLabel + " at Elmcrest");
    ReplaceAllNoMatch(roleLabel + " at Elmcrest", PHRASE, roleLabel);
  }

  /** A role without a capital P cannot bring the phrase back. */
  lemma NoCapitalP(roleLabel: string)
    requires 'P' !in roleLabel
    ensures !Occurs(roleLabel + " at Elmcrest", PHRASE)
  {
    var once := roleLabel + " at Elmcrest";
    assert 'P' !in " at Elmcrest";
    assert forall c :: c in once ==> c in roleLabel || c in " at Elmcrest";
    FirstCharAbsent(once, PHRASE);
  }

  /** The bare phrase becomes the role itself. */
  lemma RoleizePhrase(roleLabel: string)
    ensures Roleize(PHRASE, roleLabel) == roleLabel
  {
    FirstCharAbsent(PHRASE, ELMCREST_PHRASE);
    ReplaceAllNoMatch(PHRASE, ELMCREST_PHRASE, roleLabel + " at Elmcrest");
    ReplaceAllWhole(PHRASE, roleLabel);
  }

  /**
   * With the default label, copy reads as written unless it names
   * "Elmcrest Program Supervisor"...
   */
  lemma RoleizeDefaultKeeps(text: string)
    requires !Occurs(text, ELMCREST_PHRASE)
    ensures Roleize(text, RoleLabel([])) == text
  {
    if text != [] {
      ReplaceAllNoMatch(text, ELMCREST_PHRASE, PHRASE + " at Elmcrest");
      ReplaceAllSelf(text, PHRASE);
    }
  }

  /** ...which the default label rewords to "Program Supervisor at Elmcrest". */
  lemma RoleizeDefaultRewords()
    ensures Roleize(ELMCREST_PHRASE, RoleLabel([])) == "Program Supervisor at Elmcrest"
  {
    ReplaceAllWhole(ELMCREST_PHRASE, PHRASE + " at Elmcrest");
    ReplaceAllSelf(PHRASE + " at Elmcrest", PHRASE);
  }

  /** The source's own example: the shift supervisor reads "Shift Supervisor at Elmcrest". */
  lemma RoleizeShiftSupervisor()
    ensures Roleize(ELMCREST_PHRASE, ROLE_OPTIONS[1]) == "Shift Supervisor at Elmcrest"
  {
    assert ROLE_OPTIONS[1] + " at Elmcrest" == "Shift Supervisor at Elmcrest";
    NoCapitalP(ROLE_OPTIONS[1]);
    RoleizeElmcrestPhrase(ROLE_OPTIONS[1]);
  }

  /** The youth development professional reads "YDP at Elmcrest". */
  lemma RoleizeYdp()
    ensures Roleize(ELMCREST_PHRASE, ROLE_OPTIONS[2]) == "YDP at Elmcrest"
  {
    assert ROLE_OPTIONS[2] + " at Elmcrest" == "YDP at Elmcrest";
    assert |"YDP at Elmcrest"| < |PHRASE|;
    RoleizeElmcrestPhrase(ROLE_OPTIONS[2]);
  }

  /** Substituting the role adds no line break to copy and a role that have none. */
  lemma RoleizeSingle(text: string, roleLabel: string)
    requires '\n' !in text && '\n' !in roleLabel
    ensures '\n' !in Roleize(text, roleLabel)
  {
    if text != [] {
      var rep := roleLabel + " at Elmcrest";
      assert '\n' !in rep;
      ReplaceAllAvoids(text, ELMCREST_PHRASE, rep, '\n');
      ReplaceAllAvoids(ReplaceAll(text, ELMCREST_PHRASE, rep), PHRASE, roleLabel, '\n');
    }
  }

  /** `${a}-${b}`: the key of an ordered pair of traits. */
  function PairKey(a: Trait, b: Trait): string
  {
    Name(a) + "-" + Name(b)
  }

  /** The key set of a table whose entries are the pairs `pairs`, spelled `${a}-${b}`. */
  function PairKeys(pairs: seq<(Trait, Trait)>): (keys: set<string>)
    ensures forall k :: k in pairs ==> PairKey(k.0, k.1) in keys
  {
    set k | k in pairs :: PairKey(k.0, k.1)
  }

  /** The key set of a per-trait table such as `COMM_INFO`. */
  function TraitKeys(traits: seq<Trait>): (keys: set<string>)
    ensures forall t :: t in traits ==> Name(t) in keys
  {
    set t | t in traits :: Name(t)
  }

  /** The entries of `COMM_COMBOS` (primary style, secondary style), in table order. */
  const COMM_COMBO_PAIRS: seq<(Trait, Trait)> := [
    (Director, Encourager), (Director, Facilitator), (Director, Tracker),
    (Encourager, Director), (Encourager, Facilitator), (Encourager, Tracker),
    (Facilitator, Director), (Facilitator, Encourager), (Facilitator, Tracker),
    (Tracker, Director), (Tracker, Encourager), (Tracker, Facilitator)
  ]

  /** The entries of `MOTIV_COMBOS` (primary driver, secondary driver), in table order. */
  const MOTIV_COMBO_PAIRS: seq<(Trait, Trait)> := [
    (Growth, Purpose), (Growth, Connection), (Growth, Achievement),
    (Purpose, Growth), (Purpose, Connection), (Purpose, Achievement),
    (Connection, Growth), (Connection, Purpose), (Connection, Achievement),
    (Achievement, Growth), (Achievement, Purpose), (Achievement, Connection)
  ]

  /** The entries of `COMM_MOTIV_COMBOS` (primary style, primary driver), in table order. */
  const COMM_MOTIV_COMBO_PAIRS: seq<(Trait, Trait)> := [
    (Director, Growth), (Director, Purpose), (Director, Connection), (Director, Achievement),
    (Encourager, Growth), (Encourager, Purpose), (Encourager, Connection), (Encourager, Achievement),
    (Facilitator, Growth), (Facilitator, Purpose), (Facilitator, Connection), (Facilitator, Achievement),
    (Tracker, Growth), (Tracker, Purpose), (Tracker, Connection), (Tracker, Achievement)
  ]

  /** No table lists an entry twice. */
  ghost predicate NoDuplicates<T>(s: seq<T>)
  {
    forall i, j :: 0 <= i < j < |s| ==> s[i] != s[j]
  }

  /** `COMM_COMBOS` lists 12 entries, none twice... */
  lemma CommCombosDistinct()
    ensures |COMM_COMBO_PAIRS| == 12 && NoDuplicates(COMM_COMBO_PAIRS)
  {
  }

  /** ...which are exactly the ordered pairs of distinct communication styles. */
  lemma CommCombosComplete()
    ensures forall a, b :: (a, b) in COMM_COMBO_PAIRS <==> a in COMM_KEYS && b in COMM_KEYS && a != b
  {
    forall a, b ensures (a, b) in COMM_COMBO_PAIRS <==> a in COMM_KEYS && b in COMM_KEYS && a != b {
      match a
      case Director =>
      case Encourager =>
      case Facilitator =>
      case Tracker =>
      case _ =>
    }
  }

  /** `MOTIV_COMBOS` lists 12 entries, none twice... */
  lemma MotivCombosDistinct()
    ensures |MOTIV_COMBO_PAIRS| == 12 && NoDuplicates(MOTIV_COMBO_PAIRS)
  {
  }

  /** ...which are exactly the ordered pairs of distinct motivation drivers. */
  lemma MotivCombosComplete()
    ensures forall a, b :: (a, b) in MOTIV_COMBO_PAIRS <==> a in MOTIV_KEYS && b in MOTIV_KEYS && a != b
  {
    forall a, b ensures (a, b) in MOTIV_COMBO_PAIRS <==> a in MOTIV_KEYS && b in MOTIV_KEYS && a != b {
      match a
      case Growth =>
      case Purpose =>
      case Connection =>
      case Achievement =>
      case _ =>
    }
  }

  /** `COMM_MOTIV_COMBOS` lists 16 entries, none twice... */
  lemma CrossCombosDistinct()
    ensures |COMM_MOTIV_COMBO_PAIRS| == 16 && NoDuplicates(COMM_MOTIV_COMBO_PAIRS)
  {
    var p := COMM_MOTIV_COMBO_PAIRS;
    assert forall i :: 0 <= i < 16 ==> 4 * Rank(p[i].0) + Rank(p[i].1) == i;
  }

  /** ...which are exactly the pairs of a communication style and a motivation driver. */
  lemma CrossCombosComplete()
    ensures forall a, b :: (a, b) in COMM_MOTIV_COMBO_PAIRS <==> a in COMM_KEYS && b in MOTIV_KEYS
  {
    forall a, b ensures (a, b) in COMM_MOTIV_COMBO_PAIRS <==> a in COMM_KEYS && b in MOTIV_KEYS {
      match a
      case Director =>
      case Encourager =>
      case Facilitator =>
      case Tracker =>
      case _ =>
    }
  }

  /**
   * Every key the results page builds from computed scores names an entry:
   * the style and driver deep dives, both combination tables and the
   * integrated profile. The "unique blend" fallbacks are never shown.
   */
  lemma ComboKeysPresent(answers: Answers)
    ensures var s := ScoreOf(answers);
      && Name(s.primaryComm) in TraitKeys(COMM_KEYS)
      && Name(s.primaryMotiv) in TraitKeys(MOTIV_KEYS)
      && PairKey(s.primaryComm, s.secondaryComm) in PairKeys(COMM_COMBO_PAIRS)
      && PairKey(s.primaryMotiv, s.secondaryMotiv) in PairKeys(MOTIV_COMBO_PAIRS)
      && PairKey(s.primaryComm, s.primaryMotiv) in PairKeys(COMM_MOTIV_COMBO_PAIRS)
  {
    var s := ScoreOf(answers);
    ScoreRanking(answers);
    CommCombosComplete();
    MotivCombosComplete();
    CrossCombosComplete();
    assert (s.primaryComm, s.secondaryComm) in COMM_COMBO_PAIRS;
    assert (s.primaryMotiv, s.secondaryMotiv) in MOTIV_COMBO_PAIRS;
    assert (s.primaryComm, s.primaryMotiv) in COMM_MOTIV_COMBO_PAIRS;
  }
}
