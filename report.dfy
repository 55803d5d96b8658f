/**
 * `buildSummaryText`: the plain-text report the results page copies to the
 * clipboard. Lines are pushed section by section (header, communication
 * profile, motivation profile, integrated profile) and joined with "\n".
 * The narrative tables are inputs here: only their keys and the shape of
 * their entries matter, their prose does not.
 */
module Report {
  import opened Text
  import opened Assessment
  import opened Content

  /** An entry of `COMM_INFO` (`items` are its `tips`) or of `MOTIV_INFO` (`items` are its `fuels`). */
  datatype StyleInfo = StyleInfo(title: string, desc: string, items: seq<string>)

  /**
   * An entry of `COMM_COMBOS` (`first` is `howOthersExperience`, `second` is
   * `stretch`) or of `MOTIV_COMBOS` (`first` is `whatThisMeans`, `second` is `tryThis`);
   * `caption` is its `label`.
   */
  datatype PairCombo = PairCombo(caption: string, summary: string, first: seq<string>, second: seq<string>)

  /** An entry of `COMM_MOTIV_COMBOS` (`caption` is its `label`). */
  datatype CrossCombo = CrossCombo(
    caption: string, summary: string,
    strengths: seq<string>, watchOuts: seq<string>, supportIdeas: seq<string>, coachingQuestions: seq<string>)

  /** The five narrative tables, keyed as the app keys them. */
  datatype Narrative = Narrative(
    commInfo: map<string, StyleInfo>,
    motivInfo: map<string, StyleInfo>,
    commCombos: map<string, PairCombo>,
    motivCombos: map<string, PairCombo>,
    crossCombos: map<string, CrossCombo>)

  /** The tables hold exactly the entries the app ships. */
  ghost predicate WellKeyed(n: Narrative)
  {
    && n.commInfo.Keys == TraitKeys(COMM_KEYS)
    && n.motivInfo.Keys == TraitKeys(MOTIV_KEYS)
    && n.commCombos.Keys == PairKeys(COMM_COMBO_PAIRS)
    && n.motivCombos.Keys == PairKeys(MOTIV_COMBO_PAIRS)
    && n.crossCombos.Keys == PairKeys(COMM_MOTIV_COMBO_PAIRS)
  }

  function Repeat(c: char, n: nat): (r: string)
    ensures |r| == n && forall k :: 0 <= k < n ==> r[k] == c
  {
    seq(n, _ => c)
  }

  /** A fixed caption of the report: one line, with no line break in it. */
  function Line(s: string): (r: string)
    requires '\n' !in s
    ensures r == s && '\n' !in r
  {
    s
  }

  const TITLE: string := Line("Elmcrest Communication & " + "Motivation Compass – Results")
  const END: string := Line("End of results.")
  const COMM_HEADING: string := Line("COMMUNICATION PROFILE")
  const MOTIV_HEADING: string := Line("MOTIVATION PROFILE")
  const CROSS_HEADING: string := Line("INTEGRATED PROFILE " + "(Communication × Motivation)")

  // Captions of the sub-sections; the longer ones are written in two pieces.
  const STYLE_ABOUT: string := Line("About your primary style (")
  const DRIVER_ABOUT: string := Line("About your primary driver (")
  const IN_ROLE: string := Line(") in your role as ")
  const STYLE_TIPS: string := Line("Tips for stretching this style " + "in your Elmcrest role:")
  const COMBO_CAPTION: string := Line("Primary + Secondary combination: ")
  const STYLE_SHOWS: string := Line("How this often shows up with others:")
  const STYLE_STRETCH: string := Line("Stretch ideas for your communication:")
  const DRIVER_FUELS: string := Line("This tends to be fueled by:")
  const DRIVER_MEANS: string := Line("What this tends to mean:")
  const DRIVER_SUPPORT: string := Line("Ideas to better support " + "your motivation:")
  const CROSS_STRENGTHS: string := Line("Key strengths in your Elmcrest role:")
  const CROSS_WATCH: string := Line("Important watch-outs to be mindful of:")
  const CROSS_SUPPORT: string := Line("Support ideas and reflection prompts:")

  /** `${value || "N/A"}`. */
  function OrNA(value: string): string
  {
    if value == [] then "N/A" else value
  }

  /** One pushed line per item: the prefix, then the item with the role substituted. */
  function Bullets(prefix: string, items: seq<string>, roleLabel: string): (r: seq<string>)
    ensures |r| == |items|
    ensures forall k :: 0 <= k < |items| ==> r[k] == prefix + Roleize(items[k], roleLabel)
  {
    seq(|items|, k requires 0 <= k < |items| => prefix + Roleize(items[k], roleLabel))
  }

  /** `- ${k}: ${totals[k]} (out of 15)`; a missing total prints as "undefined". */
  function ScoreLine(t: Trait, totals: map<Trait, int>): string
  {
    "- " + Name(t) + ": " + (if t in totals then IntToString(totals[t]) else "undefined")
    + " (out of " + NatToString(MAX_TRAIT_TOTAL) + ")"
  }

  /** The score lines of a taxonomy, in key order. */
  function ScoreLines(keys: seq<Trait>, totals: map<Trait, int>): (r: seq<string>)
    ensures |r| == |keys|
    ensures forall k :: 0 <= k < |keys| ==> r[k] == ScoreLine(keys[k], totals)
  {
    seq(|keys|, k requires 0 <= k < |keys| => ScoreLine(keys[k], totals))
  }

  /** Title, underline, name, email, role, date and a blank line. */
  function Header(name: string, email: string, roleLabel: string, date: string): seq<string>
  {
    [TITLE, Repeat('=', 50),
     "Name: " + OrNA(name), "Email: " + OrNA(email), "Role: " + OrNA(roleLabel), "Date: " + date, ""]
  }

  /** The style deep dive, when `COMM_INFO` has the primary style. */
  function CommInfoLines(s: Scores, roleLabel: string, n: Narrative): seq<string>
  {
    if Name(s.primaryComm) !in n.commInfo then []
    else
      var info := n.commInfo[Name(s.primaryComm)];
      [STYLE_ABOUT + info.title + IN_ROLE + roleLabel + ":",
       Roleize(info.desc, roleLabel), "", STYLE_TIPS]
      + Bullets("• ", info.items, roleLabel) + [""]
  }

  /** The style combination, when `COMM_COMBOS` has the primary-secondary key. */
  function CommComboLines(s: Scores, roleLabel: string, n: Narrative): seq<string>
  {
    var key := PairKey(s.primaryComm, s.secondaryComm);
    if key !in n.commCombos then []
    else
      var combo := n.commCombos[key];
      [COMBO_CAPTION + combo.caption, Roleize(combo.summary, roleLabel), "",
       STYLE_SHOWS]
      + Bullets("• ", combo.first, roleLabel) + ["", STYLE_STRETCH]
      + Bullets("• ", combo.second, roleLabel) + [""]
  }

  /** The communication profile section. */
  function CommSection(s: Scores, roleLabel: string, n: Narrative): seq<string>
  {
    [COMM_HEADING, Repeat('-', 21),
     "Primary style: " + Name(s.primaryComm), "Secondary style: " + Name(s.secondaryComm), ""]
    + ScoreLines(COMM_KEYS, s.comm) + [""]
    + CommInfoLines(s, roleLabel, n) + CommComboLines(s, roleLabel, n)
  }

  /** The driver deep dive, when `MOTIV_INFO` has the primary driver. */
  function MotivInfoLines(s: Scores, roleLabel: string, n: Narrative): seq<string>
  {
    if Name(s.primaryMotiv) !in n.motivInfo then []
    else
      var info := n.motivInfo[Name(s.primaryMotiv)];
      [DRIVER_ABOUT + info.title + IN_ROLE + roleLabel + ":",
       Roleize(info.desc, roleLabel), "", DRIVER_FUELS]
      + Bullets("• ", info.items, roleLabel) + [""]
  }

  /** The driver combination, when `MOTIV_COMBOS` has the primary-secondary key. */
  function MotivComboLines(s: Scores, roleLabel: string, n: Narrative): seq<string>
  {
    var key := PairKey(s.primaryMotiv, s.secondaryMotiv);
    if key !in n.motivCombos then []
    else
      var combo := n.motivCombos[key];
      [COMBO_CAPTION + combo.caption, Roleize(combo.summary, roleLabel), "",
       DRIVER_MEANS]
      + Bullets("• ", combo.first, roleLabel) + ["", DRIVER_SUPPORT]
      + Bullets("• ", combo.second, roleLabel) + [""]
  }

  /** The motivation profile section. */
  function MotivSection(s: Scores, roleLabel: string, n: Narrative): seq<string>
  {
    [MOTIV_HEADING, Repeat('-', 18),
     "Primary driver: " + Name(s.primaryMotiv), "Secondary driver: " + Name(s.secondaryMotiv), ""]
    + ScoreLines(MOTIV_KEYS, s.motiv) + [""]
    + MotivInfoLines(s, roleLabel, n) + MotivComboLines(s, roleLabel, n)
  }

  /** The integrated profile, when `COMM_MOTIV_COMBOS` has the primary style-primary driver key. */
  function CrossSection(s: Scores, roleLabel: string, n: Narrative): seq<string>
  {
    var key := PairKey(s.primaryComm, s.primaryMotiv);
    if key !in n.crossCombos then []
    else
      var combo := n.crossCombos[key];
      [CROSS_HEADING, Repeat('-', 46), combo.caption + " – " + Roleize(combo.summary, roleLabel), "",
       CROSS_STRENGTHS]
      + Bullets("• ", combo.strengths, roleLabel) + ["", CROSS_WATCH]
      + Bullets("• ", combo.watchOuts, roleLabel) + ["", CROSS_SUPPORT]
      + Bullets("• ", combo.supportIdeas, roleLabel) + [""]
      + Bullets("? ", combo.coachingQuestions, roleLabel) + [""]
  }

  /** Every line of the report, in push order. */
  function SummaryLines(name: string, email: string, roleLabel: string, date: string, s: Scores, n: Narrative): seq<string>
  {
    Header(name, email, roleLabel, date) + CommSection(s, roleLabel, n) + MotivSection(s, roleLabel, n)
    + CrossSection(s, roleLabel, n) + [END]
  }

  /** `items.forEach((t) => lines.push(`${prefix}${roleize(t, roleLabel)}`))`. */
  method PushBullets(lines: seq<string>, prefix: string, items: seq<string>, roleLabel: string) returns (out: seq<string>)
    ensures out == lines + Bullets(prefix, items, roleLabel)
  {
    out := lines;
    var i := 0;
    while i < |items|
      invariant 0 <= i <= |items|
      invariant out == lines + Bullets(prefix, items[..i], roleLabel)
    {
      assert Bullets(prefix, items[..i + 1], roleLabel) == Bullets(prefix, items[..i], roleLabel) + [prefix + Roleize(items[i], roleLabel)];
      out := out + [prefix + Roleize(items[i], roleLabel)];
      i := i + 1;
    }
    assert items[..i] == items;
  }

  /** `keys.forEach((k) => lines.push(`- ${k}: ${totals[k]} (out of 15)`))`. */
  method PushScores(lines: seq<string>, keys: seq<Trait>, totals: map<Trait, int>) returns (out: seq<string>)
    ensures out == lines + ScoreLines(keys, totals)
  {
    out := lines;
    var i := 0;
    while i < |keys|
      invariant 0 <= i <= |keys|
      invariant out == lines + ScoreLines(keys[..i], totals)
    {
      assert ScoreLines(keys[..i + 1], totals) == ScoreLines(keys[..i], totals) + [ScoreLine(keys[i], totals)];
      out := out + [ScoreLine(keys[i], totals)];
      i := i + 1;
    }
    assert keys[..i] == keys;
  }

  lemma Onto3<T>(l: seq<T>, a: seq<T>, b: seq<T>, c: seq<T>)
    ensures l + a + b + c == l + (a + b + c)
  {
  }

  lemma Onto5<T>(l: seq<T>, a: seq<T>, b: seq<T>, c: seq<T>, d: seq<T>, e: seq<T>)
    ensures l + a + b + c + d + e == l + (a + b + c + d + e)
  {
  }

  /** The pushes of the style deep dive, appended to `lines`. */
  method PushCommInfo(lines: seq<string>, s: Scores, roleLabel: string, n: Narrative) returns (out: seq<string>)
    ensures out == lines + CommInfoLines(s, roleLabel, n)
  {
    out := lines;
    if Name(s.primaryComm) in n.commInfo {
      var info := n.commInfo[Name(s.primaryComm)];
      var intro := [STYLE_ABOUT + info.title + IN_ROLE + roleLabel + ":",
        Roleize(info.desc, roleLabel), "", STYLE_TIPS];
      out := out + intro;
      out := PushBullets(out, "• ", info.items, roleLabel);
      out := out + [""];
      Onto3(lines, intro, Bullets("• ", info.items, roleLabel), [""]);
    }
  }

  /** The pushes of the style combination, appended to `lines`. */
  method PushCommCombo(lines: seq<string>, s: Scores, roleLabel: string, n: Narrative) returns (out: seq<string>)
    ensures out == lines + CommComboLines(s, roleLabel, n)
  {
    out := lines;
    var key := PairKey(s.primaryComm, s.secondaryComm);
    if key in n.commCombos {
      var combo := n.commCombos[key];
      var intro := [COMBO_CAPTION + combo.caption,
        Roleize(combo.summary, roleLabel), "", STYLE_SHOWS];
      var middle := ["", STYLE_STRETCH];
      out := out + intro;
      out := PushBullets(out, "• ", combo.first, roleLabel);
      out := out + middle;
      out := PushBullets(out, "• ", combo.second, roleLabel);
      out := out + [""];
      Onto5(lines, intro, Bullets("• ", combo.first, roleLabel), middle, Bullets("• ", combo.second, roleLabel), [""]);
    }
  }

  /** The pushes of the communication profile, appended to `lines`. */
  method PushCommSection(lines: seq<string>, s: Scores, roleLabel: string, n: Narrative) returns (out: seq<string>)
    ensures out == lines + CommSection(s, roleLabel, n)
  {
    var heading := [COMM_HEADING, Repeat('-', 21),
      "Primary style: " + Name(s.primaryComm), "Secondary style: " + Name(s.secondaryComm), ""];
    out := lines + heading;
    out := PushScores(out, COMM_KEYS, s.comm);
    out := out + [""];
    out := PushCommInfo(out, s, roleLabel, n);
    out := PushCommCombo(out, s, roleLabel, n);
    Onto5(lines, heading, ScoreLines(COMM_KEYS, s.comm), [""], CommInfoLines(s, roleLabel, n), CommComboLines(s, roleLabel, n));
  }

  lemma Onto9<T>(l: seq<T>, a: seq<T>, b: seq<T>, c: seq<T>, d: seq<T>, e: seq<T>, f: seq<T>, g: seq<T>, h: seq<T>, i: seq<T>)
    ensures l + a + b + c + d + e + f + g + h + i == l + (a + b + c + d + e + f + g + h + i)
  {
  }

  /** The pushes of the driver deep dive, appended to `lines`. */
  method PushMotivInfo(lines: seq<string>, s: Scores, roleLabel: string, n: Narrative) returns (out: seq<string>)
    ensures out == lines + MotivInfoLines(s, roleLabel, n)
  {
    out := lines;
    if Name(s.primaryMotiv) in n.motivInfo {
      var info := n.motivInfo[Name(s.primaryMotiv)];
      var intro := [DRIVER_ABOUT + info.title + IN_ROLE + roleLabel + ":",
        Roleize(info.desc, roleLabel), "", DRIVER_FUELS];
      out := out + intro;
      out := PushBullets(out, "• ", info.items, roleLabel);
      out := out + [""];
      Onto3(lines, intro, Bullets("• ", info.items, roleLabel), [""]);
    }
  }

  /** The pushes of the driver combination, appended to `lines`. */
  method PushMotivCombo(lines: seq<string>, s: Scores, roleLabel: string, n: Narrative) returns (out: seq<string>)
    ensures out == lines + MotivComboLines(s, roleLabel, n)
  {
    out := lines;
    var key := PairKey(s.primaryMotiv, s.secondaryMotiv);
    if key in n.motivCombos {
      var combo := n.motivCombos[key];
      var intro := [COMBO_CAPTION + combo.caption,
        Roleize(combo.summary, roleLabel), "", DRIVER_MEANS];
      var middle := ["", DRIVER_SUPPORT];
      out := out + intro;
      out := PushBullets(out, "• ", combo.first, roleLabel);
      out := out + middle;
      out := PushBullets(out, "• ", combo.second, roleLabel);
      out := out + [""];
      Onto5(lines, intro, Bullets("• ", combo.first, roleLabel), middle, Bullets("• ", combo.second, roleLabel), [""]);
    }
  }

  /** The pushes of the motivation profile, appended to `lines`. */
  method PushMotivSection(lines: seq<string>, s: Scores, roleLabel: string, n: Narrative) returns (out: seq<string>)
    ensures out == lines + MotivSection(s, roleLabel, n)
  {
    var heading := [MOTIV_HEADING, Repeat('-', 18),
      "Primary driver: " + Name(s.primaryMotiv), "Secondary driver: " + Name(s.secondaryMotiv), ""];
    out := lines + heading;
    out := PushScores(out, MOTIV_KEYS, s.motiv);
    out := out + [""];
    out := PushMotivInfo(out, s, roleLabel, n);
    out := PushMotivCombo(out, s, roleLabel, n);
    Onto5(lines, heading, ScoreLines(MOTIV_KEYS, s.motiv), [""], MotivInfoLines(s, roleLabel, n), MotivComboLines(s, roleLabel, n));
  }

  /** The pushes of the integrated profile, appended to `lines`. */
  method PushCrossSection(lines: seq<string>, s: Scores, roleLabel: string, n: Narrative) returns (out: seq<string>)
    ensures out == lines + CrossSection(s, roleLabel, n)
  {
    out := lines;
    var key := PairKey(s.primaryComm, s.primaryMotiv);
    if key in n.crossCombos {
      var combo := n.crossCombos[key];
      var intro := [CROSS_HEADING, Repeat('-', 46), combo.caption + " – " + Roleize(combo.summary, roleLabel), "",
        CROSS_STRENGTHS];
      var watch := ["", CROSS_WATCH];
      var support := ["", CROSS_SUPPORT];
      out := out + intro;
      out := PushBullets(out, "• ", combo.strengths, roleLabel);
      out := out + watch;
      out := PushBullets(out, "• ", combo.watchOuts, roleLabel);
      out := out + support;
      out := PushBullets(out, "• ", combo.supportIdeas, roleLabel);
      out := out + [""];
      out := PushBullets(out, "? ", combo.coachingQuestions, roleLabel);
      out := out + [""];
      Onto9(lines, intro, Bullets("• ", combo.strengths, roleLabel), watch, Bullets("• ", combo.watchOuts, roleLabel),
        support, Bullets("• ", combo.supportIdeas, roleLabel), [""], Bullets("? ", combo.coachingQuestions, roleLabel), [""]);
    }
  }

  /**
   * `buildSummaryText`: push the header and the three profile sections, then
   * "End of results.", and join the lines with "\n".
   */
  method BuildSummaryText(name: string, email: string, roleLabel: string, date: string, totals: Scores, n: Narrative)
    returns (text: string)
    ensures text == Join(SummaryLines(name, email, roleLabel, date, totals, n), "\n")
  {
    var lines: seq<string> := [];
    var header := Header(name, email, roleLabel, date);
    lines := lines + header;
    lines := PushCommSection(lines, totals, roleLabel, n);
    lines := PushMotivSection(lines, totals, roleLabel, n);
    lines := PushCrossSection(lines, totals, roleLabel, n);
    lines := lines + [END];
    assert [] + header == header;
    Onto5([], header, CommSection(totals, roleLabel, n), MotivSection(totals, roleLabel, n), CrossSection(totals, roleLabel, n), [END]);
    assert [] + SummaryLines(name, email, roleLabel, date, totals, n) == SummaryLines(name, email, roleLabel, date, totals, n);
    text := Join(lines, "\n");
  }

  /** No line of `lines` holds a line break. */
  ghost predicate SingleLines(lines: seq<string>)
  {
    forall k :: 0 <= k < |lines| ==> '\n' !in lines[k]
  }

  ghost predicate InfoSingle(info: StyleInfo)
  {
    '\n' !in info.title && '\n' !in info.desc && SingleLines(info.items)
  }

  ghost predicate PairSingle(combo: PairCombo)
  {
    '\n' !in combo.caption && '\n' !in combo.summary && SingleLines(combo.first) && SingleLines(combo.second)
  }

  ghost predicate CrossSingle(combo: CrossCombo)
  {
    && '\n' !in combo.caption && '\n' !in combo.summary
    && SingleLines(combo.strengths) && SingleLines(combo.watchOuts)
    && SingleLines(combo.supportIdeas) && SingleLines(combo.coachingQuestions)
  }

  /** No entry of any table holds a line break (the shipped prose has none). */
  ghost predicate NarrativeSingle(n: Narrative)
  {
    && (forall k :: k in n.commInfo ==> InfoSingle(n.commInfo[k]))
    && (forall k :: k in n.motivInfo ==> InfoSingle(n.motivInfo[k]))
    && (forall k :: k in n.commCombos ==> PairSingle(n.commCombos[k]))
    && (forall k :: k in n.motivCombos ==> PairSingle(n.motivCombos[k]))
    && (forall k :: k in n.crossCombos ==> CrossSingle(n.crossCombos[k]))
  }

  lemma SingleConcat(a: seq<string>, b: seq<string>)
    requires SingleLines(a) && SingleLines(b)
    ensures SingleLines(a + b)
  {
    forall k | 0 <= k < |a + b|
      ensures '\n' !in (a + b)[k]
    {
      if k < |a| { assert (a + b)[k] == a[k]; } else { assert (a + b)[k] == b[k - |a|]; }
    }
  }

  lemma BulletsSingle(prefix: string, items: seq<string>, roleLabel: string)
    requires '\n' !in prefix && SingleLines(items) && '\n' !in roleLabel
    ensures SingleLines(Bullets(prefix, items, roleLabel))
  {
    var r := Bullets(prefix, items, roleLabel);
    forall k | 0 <= k < |r|
      ensures '\n' !in r[k]
    {
      RoleizeSingle(items[k], roleLabel);
    }
  }

  lemma NameSingle(t: Trait)
    ensures '\n' !in Name(t)
  {
  }

  lemma ScoreLinesSingle(keys: seq<Trait>, totals: map<Trait, int>)
    ensures SingleLines(ScoreLines(keys, totals))
  {
    var r := ScoreLines(keys, totals);
    forall k | 0 <= k < |r|
      ensures '\n' !in r[k]
    {
      NameSingle(keys[k]);
      var v := if keys[k] in totals then IntToString(totals[keys[k]]) else "undefined";
      assert '\n' !in v;
      assert '\n' !in NatToString(MAX_TRAIT_TOTAL);
      assert r[k] == "- " + Name(keys[k]) + ": " + v + " (out of " + NatToString(MAX_TRAIT_TOTAL) + ")";
    }
  }

  lemma HeaderSingle(name: string, email: string, roleLabel: string, date: string)
    requires '\n' !in name && '\n' !in email && '\n' !in roleLabel && '\n' !in date
    ensures SingleLines(Header(name, email, roleLabel, date))
  {
  }

  lemma CommInfoSingle(s: Scores, roleLabel: string, n: Narrative)
    requires NarrativeSingle(n) && '\n' !in roleLabel
    ensures SingleLines(CommInfoLines(s, roleLabel, n))
  {
    if Name(s.primaryComm) in n.commInfo {
      var info := n.commInfo[Name(s.primaryComm)];
      RoleizeSingle(info.desc, roleLabel);
      var intro := [STYLE_ABOUT + info.title + IN_ROLE + roleLabel + ":",
        Roleize(info.desc, roleLabel), "", STYLE_TIPS];
      var tips := Bullets("• ", info.items, roleLabel);
      BulletsSingle("• ", info.items, roleLabel);
      SingleConcat(intro, tips);
      SingleConcat(intro + tips, [""]);
    }
  }

  lemma CommComboSingle(s: Scores, roleLabel: string, n: Narrative)
    requires NarrativeSingle(n) && '\n' !in roleLabel
    ensures SingleLines(CommComboLines(s, roleLabel, n))
  {
    var key := PairKey(s.primaryComm, s.secondaryComm);
    if key in n.commCombos {
      var combo := n.commCombos[key];
      RoleizeSingle(combo.summary, roleLabel);
      var intro := [COMBO_CAPTION + combo.caption, Roleize(combo.summary, roleLabel), "", STYLE_SHOWS];
      var first := Bullets("• ", combo.first, roleLabel);
      var second := Bullets("• ", combo.second, roleLabel);
      BulletsSingle("• ", combo.first, roleLabel);
      BulletsSingle("• ", combo.second, roleLabel);
      SingleConcat(intro, first);
      SingleConcat(intro + first, ["", STYLE_STRETCH]);
      SingleConcat(intro + first + ["", STYLE_STRETCH], second);
      SingleConcat(intro + first + ["", STYLE_STRETCH] + second, [""]);
    }
  }

  lemma CommSectionSingle(s: Scores, roleLabel: string, n: Narrative)
    requires NarrativeSingle(n) && '\n' !in roleLabel
    ensures SingleLines(CommSection(s, roleLabel, n))
  {
    NameSingle(s.primaryComm);
    NameSingle(s.secondaryComm);
    var top := [COMM_HEADING, Repeat('-', 21),
      "Primary style: " + Name(s.primaryComm), "Secondary style: " + Name(s.secondaryComm), ""];
    var scores := ScoreLines(COMM_KEYS, s.comm);
    ScoreLinesSingle(COMM_KEYS, s.comm);
    CommInfoSingle(s, roleLabel, n);
    CommComboSingle(s, roleLabel, n);
    SingleConcat(top, scores);
    SingleConcat(top + scores, [""]);
    SingleConcat(top + scores + [""], CommInfoLines(s, roleLabel, n));
    SingleConcat(top + scores + [""] + CommInfoLines(s, roleLabel, n), CommComboLines(s, roleLabel, n));
  }

  lemma MotivInfoSingle(s: Scores, roleLabel: string, n: Narrative)
    requires NarrativeSingle(n) && '\n' !in roleLabel
    ensures SingleLines(MotivInfoLines(s, roleLabel, n))
  {
    if Name(s.primaryMotiv) in n.motivInfo {
      var info := n.motivInfo[Name(s.primaryMotiv)];
      RoleizeSingle(info.desc, roleLabel);
      var intro := [DRIVER_ABOUT + info.title + IN_ROLE + roleLabel + ":",
        Roleize(info.desc, roleLabel), "", DRIVER_FUELS];
      var fuels := Bullets("• ", info.items, roleLabel);
      BulletsSingle("• ", info.items, roleLabel);
      SingleConcat(intro, fuels);
      SingleConcat(intro + fuels, [""]);
    }
  }

  lemma MotivComboSingle(s: Scores, roleLabel: string, n: Narrative)
    requires NarrativeSingle(n) && '\n' !in roleLabel
    ensures SingleLines(MotivComboLines(s, roleLabel, n))
  {
    var key := PairKey(s.primaryMotiv, s.secondaryMotiv);
    if key in n.motivCombos {
      var combo := n.motivCombos[key];
      RoleizeSingle(combo.summary, roleLabel);
      var intro := [COMBO_CAPTION + combo.caption, Roleize(combo.summary, roleLabel), "", DRIVER_MEANS];
      var first := Bullets("• ", combo.first, roleLabel);
      var second := Bullets("• ", combo.second, roleLabel);
      BulletsSingle("• ", combo.first, roleLabel);
      BulletsSingle("• ", combo.second, roleLabel);
      SingleConcat(intro, first);
      SingleConcat(intro + first, ["", DRIVER_SUPPORT]);
      SingleConcat(intro + first + ["", DRIVER_SUPPORT], second);
      SingleConcat(intro + first + ["", DRIVER_SUPPORT] + second, [""]);
    }
  }

  lemma MotivSectionSingle(s: Scores, roleLabel: string, n: Narrative)
    requires NarrativeSingle(n) && '\n' !in roleLabel
    ensures SingleLines(MotivSection(s, roleLabel, n))
  {
    NameSingle(s.primaryMotiv);
    NameSingle(s.secondaryMotiv);
    var top := [MOTIV_HEADING, Repeat('-', 18),
      "Primary driver: " + Name(s.primaryMotiv), "Secondary driver: " + Name(s.secondaryMotiv), ""];
    var scores := ScoreLines(MOTIV_KEYS, s.motiv);
    ScoreLinesSingle(MOTIV_KEYS, s.motiv);
    MotivInfoSingle(s, roleLabel, n);
    MotivComboSingle(s, roleLabel, n);
    SingleConcat(top, scores);
    SingleConcat(top + scores, [""]);
    SingleConcat(top + scores + [""], MotivInfoLines(s, roleLabel, n));
    SingleConcat(top + scores + [""] + MotivInfoLines(s, roleLabel, n), MotivComboLines(s, roleLabel, n));
  }

  lemma CrossSectionSingle(s: Scores, roleLabel: string, n: Narrative)
    requires NarrativeSingle(n) && '\n' !in roleLabel
    ensures SingleLines(CrossSection(s, roleLabel, n))
  {
    var key := PairKey(s.primaryComm, s.primaryMotiv);
    if key in n.crossCombos {
      var combo := n.crossCombos[key];
      RoleizeSingle(combo.summary, roleLabel);
      var intro := [CROSS_HEADING, Repeat('-', 46), combo.caption + " – " + Roleize(combo.summary, roleLabel), "",
        CROSS_STRENGTHS];
      var strengths := Bullets("• ", combo.strengths, roleLabel);
      var watch := Bullets("• ", combo.watchOuts, roleLabel);
      var support := Bullets("• ", combo.supportIdeas, roleLabel);
      var questions := Bullets("? ", combo.coachingQuestions, roleLabel);
      BulletsSingle("• ", combo.strengths, roleLabel);
      BulletsSingle("• ", combo.watchOuts, roleLabel);
      BulletsSingle("• ", combo.supportIdeas, roleLabel);
      BulletsSingle("? ", combo.coachingQuestions, roleLabel);
      var a := intro + strengths;
      SingleConcat(intro, strengths);
      var b := a + ["", CROSS_WATCH];
      SingleConcat(a, ["", CROSS_WATCH]);
      var c := b + watch;
      SingleConcat(b, watch);
      var d := c + ["", CROSS_SUPPORT];
      SingleConcat(c, ["", CROSS_SUPPORT]);
      var e := d + support;
      SingleConcat(d, support);
      var f := e + [""];
      SingleConcat(e, [""]);
      var g := f + questions;
      SingleConcat(f, questions);
      SingleConcat(g, [""]);
    }
  }

  /** No line of the report holds a line break when neither the user's fields nor the prose do. */
  lemma SummarySingle(name: string, email: string, roleLabel: string, date: string, s: Scores, n: Narrative)
    requires '\n' !in name && '\n' !in email && '\n' !in roleLabel && '\n' !in date
    requires NarrativeSingle(n)
    ensures SingleLines(SummaryLines(name, email, roleLabel, date, s, n))
  {
    var header := Header(name, email, roleLabel, date);
    HeaderSingle(name, email, roleLabel, date);
    CommSectionSingle(s, roleLabel, n);
    MotivSectionSingle(s, roleLabel, n);
    CrossSectionSingle(s, roleLabel, n);
    SingleConcat(header, CommSection(s, roleLabel, n));
    SingleConcat(header + CommSection(s, roleLabel, n), MotivSection(s, roleLabel, n));
    SingleConcat(header + CommSection(s, roleLabel, n) + MotivSection(s, roleLabel, n), CrossSection(s, roleLabel, n));
    SingleConcat(header + CommSection(s, roleLabel, n) + MotivSection(s, roleLabel, n) + CrossSection(s, roleLabel, n), [END]);
  }

  /**
   * The copied text splits back, at its line breaks, into exactly the pushed
   * lines: nothing is lost or merged by the join.
   */
  lemma SummaryRoundTrip(name: string, email: string, roleLabel: string, date: string, s: Scores, n: Narrative)
    requires '\n' !in name && '\n' !in email && '\n' !in roleLabel && '\n' !in date
    requires NarrativeSingle(n)
    ensures var lines := SummaryLines(name, email, roleLabel, date, s, n);
      Split(Join(lines, "\n"), '\n') == lines
  {
    var lines := SummaryLines(name, email, roleLabel, date, s, n);
    SummarySingle(name, email, roleLabel, date, s, n);
    assert |lines| >= 1;
    assert forall k :: 0 <= k < |lines| ==> '\n' !in lines[k];
    SplitJoin(lines, '\n');
  }

  /**
   * Where things sit in the report: title and underline, the user's fields
   * with "N/A" for a blank one, the communication heading at line 7 with the
   * four style scores at lines 12-15 in key order, the motivation heading
   * right after the communication section with its four scores five lines
   * below it, the integrated heading right after that when the section is
   * present, and "End of results." last.
   */
  lemma SummaryShape(name: string, email: string, roleLabel: string, date: string, s: Scores, n: Narrative)
    ensures var lines := SummaryLines(name, email, roleLabel, date, s, n);
      && lines[0] == TITLE && lines[1] == Repeat('=', 50)
      && lines[2] == "Name: " + OrNA(name) && lines[3] == "Email: " + OrNA(email)
      && lines[4] == "Role: " + OrNA(roleLabel) && lines[5] == "Date: " + date
      && lines[7] == COMM_HEADING
      && lines[9] == "Primary style: " + Name(s.primaryComm)
      && lines[10] == "Secondary style: " + Name(s.secondaryComm)
      && (forall k :: 0 <= k < 4 ==> lines[12 + k] == ScoreLine(COMM_KEYS[k], s.comm))
      && lines[|lines| - 1] == END
    ensures var lines := SummaryLines(name, email, roleLabel, date, s, n);
      var m := 7 + |CommSection(s, roleLabel, n)|;
      && m + |MotivSection(s, roleLabel, n)| < |lines|
      && lines[m] == MOTIV_HEADING
      && lines[m + 2] == "Primary driver: " + Name(s.primaryMotiv)
      && lines[m + 3] == "Secondary driver: " + Name(s.secondaryMotiv)
      && (forall k :: 0 <= k < 4 ==> lines[m + 5 + k] == ScoreLine(MOTIV_KEYS[k], s.motiv))
      && (CrossSection(s, roleLabel, n) != [] ==> lines[m + |MotivSection(s, roleLabel, n)|] == CROSS_HEADING)
  {
    var header := Header(name, email, roleLabel, date);
    var comm := CommSection(s, roleLabel, n);
    var motiv := MotivSection(s, roleLabel, n);
    var cross := CrossSection(s, roleLabel, n);
    var lines := SummaryLines(name, email, roleLabel, date, s, n);
    CommShape(s, roleLabel, n);
    MotivShape(s, roleLabel, n);
    var m := 7 + |comm|;
    var rest := cross + [END];
    assert lines == header + comm + motiv + rest;
    Place(header, comm, motiv, rest);
    assert lines[7] == comm[0] && lines[9] == comm[2] && lines[10] == comm[3];
    assert lines[m] == motiv[0] && lines[m + 2] == motiv[2] && lines[m + 3] == motiv[3];
    if cross != [] {
      assert lines[m + |motiv|] == rest[0];
    }
  }

  /** Indexing into four consecutive parts. */
  lemma Place<T>(a: seq<T>, b: seq<T>, c: seq<T>, d: seq<T>)
    ensures var l := a + b + c + d;
      && (forall k :: 0 <= k < |a| ==> l[k] == a[k])
      && (forall k :: 0 <= k < |b| ==> l[|a| + k] == b[k])
      && (forall k :: 0 <= k < |c| ==> l[|a| + |b| + k] == c[k])
      && (forall k :: 0 <= k < |d| ==> l[|a| + |b| + |c| + k] == d[k])
  {
  }

  /** The communication section: heading, underline, primary, secondary, blank, then the four scores. */
  lemma CommShape(s: Scores, roleLabel: string, n: Narrative)
    ensures var c := CommSection(s, roleLabel, n);
      && |c| >= 10 && c[0] == COMM_HEADING
      && c[2] == "Primary style: " + Name(s.primaryComm) && c[3] == "Secondary style: " + Name(s.secondaryComm)
      && forall k :: 0 <= k < 4 ==> c[5 + k] == ScoreLine(COMM_KEYS[k], s.comm)
  {
  }

  /** The motivation section: heading, underline, primary, secondary, blank, then the four scores. */
  lemma MotivShape(s: Scores, roleLabel: string, n: Narrative)
    ensures var c := MotivSection(s, roleLabel, n);
      && |c| >= 10 && c[0] == MOTIV_HEADING
      && c[2] == "Primary driver: " + Name(s.primaryMotiv) && c[3] == "Secondary driver: " + Name(s.secondaryMotiv)
      && forall k :: 0 <= k < 4 ==> c[5 + k] == ScoreLine(MOTIV_KEYS[k], s.motiv)
  {
  }

  /**
   * With the shipped tables, every optional part of the report is present
   * for every set of answers: the primary style and driver deep dives, both
   * primary-secondary combinations and the integrated profile.
   */
  lemma FullReport(answers: Answers, roleLabel: string, n: Narrative)
    requires WellKeyed(n)
    ensures var s := ScoreOf(answers);
      && CommInfoLines(s, roleLabel, n) != [] && CommComboLines(s, roleLabel, n) != []
      && MotivInfoLines(s, roleLabel, n) != [] && MotivComboLines(s, roleLabel, n) != []
      && CrossSection(s, roleLabel, n) != [] && CrossSection(s, roleLabel, n)[0] == CROSS_HEADING
  {
    ComboKeysPresent(answers);
    SectionsPresent(ScoreOf(answers), roleLabel, n);
  }

  /** Each optional part is present once its table holds the key looked up for it. */
  lemma SectionsPresent(s: Scores, roleLabel: string, n: Narrative)
    requires Name(s.primaryComm) in n.commInfo && Name(s.primaryMotiv) in n.motivInfo
    requires PairKey(s.primaryComm, s.secondaryComm) in n.commCombos
    requires PairKey(s.primaryMotiv, s.secondaryMotiv) in n.motivCombos
    requires PairKey(s.primaryComm, s.primaryMotiv) in n.crossCombos
    ensures CommInfoLines(s, roleLabel, n) != [] && CommComboLines(s, roleLabel, n) != []
    ensures MotivInfoLines(s, roleLabel, n) != [] && MotivComboLines(s, roleLabel, n) != []
    ensures CrossSection(s, roleLabel, n) != [] && CrossSection(s, roleLabel, n)[0] == CROSS_HEADING
  {
  }
}
