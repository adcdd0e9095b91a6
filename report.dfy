/**
 * Content assembly of the assessment report: which paragraphs the report
 * holds, in which order, and how long texts are shortened. The report is an
 * abstract story of items (title, headings, body paragraphs and spacers); the
 * PDF layout, styles and the date of generation are not computed here (the
 * date arrives already formatted).
 *
 * The report's inputs are decoded JSON values, modelled by `Json`; Python's
 * truthiness and `str()` are written out for them.
 */
module Report {

  import opened Wrappers

  // ---------------------------------------------------------------------
  // JSON values, as the report sees them

  datatype Json =
    | JNull
    | JBool(b: bool)
    | JInt(i: int)
    | JStr(s: string)
    | JList(items: seq<Json>)
    | JObject(members: seq<(string, Json)>)

  /** Python truthiness: None, False, 0 and empty strings, lists and dicts are false. */
  predicate Truthy(v: Json)
  {
    match v
    case JNull => false
    case JBool(b) => b
    case JInt(i) => i != 0
    case JStr(s) => s != ""
    case JList(items) => items != []
    case JObject(members) => members != []
  }

  predicate HasKey(members: seq<(string, Json)>, key: string)
  {
    exists k :: 0 <= k < |members| && members[k].0 == key
  }

  /** `d.get(key)`: the value of the last binding of `key` (a repeated JSON key keeps its last value), else None. */
  function Lookup(members: seq<(string, Json)>, key: string): (v: Json)
    ensures !HasKey(members, key) ==> v == JNull
  {
    if members == [] then JNull
    else if members[|members| - 1].0 == key then members[|members| - 1].1
    else Lookup(members[..|members| - 1], key)
  }

  /** `d.get(key)` on a value that is a dict; anything else has no keys. */
  function Get(v: Json, key: string): Json
  {
    if v.JObject? then Lookup(v.members, key) else JNull
  }

  /** The bindings of `members` other than those of `key`. */
  function Without(members: seq<(string, Json)>, key: string): (r: seq<(string, Json)>)
    ensures !HasKey(r, key)
  {
    if members == [] then []
    else if members[|members| - 1].0 == key then Without(members[..|members| - 1], key)
    else Without(members[..|members| - 1], key) + [members[|members| - 1]]
  }

  lemma {:induction false} LookupWithout(members: seq<(string, Json)>, removed: string, key: string)
    ensures Lookup(Without(members, removed), key) == if key == removed then JNull else Lookup(members, key)
  {
    if members != [] {
      LookupWithout(members[..|members| - 1], removed, key);
    }
  }

  function DigitChar(d: nat): char
    requires d < 10
  {
    "0123456789"[d]
  }

  /** Decimal digits of `n`, most significant first, without leading zeros. */
  function NatToString(n: nat): (s: string)
    ensures |s| >= 1
    ensures forall k :: 0 <= k < |s| ==> '0' <= s[k] <= '9'
  {
    if n < 10 then [DigitChar(n)] else NatToString(n / 10) + [DigitChar(n % 10)]
  }

  function IntToString(i: int): string
  {
    if i < 0 then "-" + NatToString(-i) else NatToString(i)
  }

  function Join(sep: string, parts: seq<string>): (r: string)
    ensures parts == [] ==> r == ""
    ensures parts != [] ==> |parts[0]| <= |r| && r[..|parts[0]|] == parts[0]
  {
    if parts == [] then ""
    else if |parts| == 1 then parts[0]
    else parts[0] + sep + Join(sep, parts[1..])
  }

  /**
   * Python's `str()` of a value; `repr` inside lists and dicts puts a string
   * in single quotes.
   */
  function Str(v: Json): (r: string)
    ensures r == "" <==> v == JStr("")
  {
    if v.JStr? then v.s else Repr(v)
  }

  function Repr(v: Json): (r: string)
    ensures r != ""
    decreases v, 1, 0
  {
    match v
    case JNull => "None"
    case JBool(b) => if b then "True" else "False"
    case JInt(i) => IntToString(i)
    case JStr(s) => "'" + s + "'"
    case JList(items) => "[" + ReprItems(items) + "]"
    case JObject(members) => "{" + ReprMembers(members, 0) + "}"
  }

  /** The reprs of list items, joined with ", ". */
  function ReprItems(items: seq<Json>): string
    decreases items, 0, 0
  {
    if items == [] then ""
    else if |items| == 1 then Repr(items[0])
    else Repr(items[0]) + ", " + ReprItems(items[1..])
  }

  /**
   * The `'key': value` pairs of a dict from position `i` on, joined with ", ".
   * A dict holds each key once: a repeated key is shown where it first
   * occurs, with the value of its last binding.
   */
  function ReprMembers(members: seq<(string, Json)>, i: nat): string
    decreases members, 0, |members| - i
  {
    if i >= |members| then ""
    else if HasKey(members[..i], members[i].0) then ReprMembers(members, i + 1)
    else
      var j := LastIndex(members, members[i].0);
      assert members[j].1 < members[j];
      var member := "'" + members[i].0 + "': " + Repr(members[j].1);
      var rest := ReprMembers(members, i + 1);
      if rest == "" then member else member + ", " + rest
  }

  /** The position of the last binding of `key`, the one `Lookup` returns. */
  function LastIndex(members: seq<(string, Json)>, key: string): (j: nat)
    requires HasKey(members, key)
    ensures j < |members| && members[j].0 == key && members[j].1 == Lookup(members, key)
    ensures forall k :: j < k < |members| ==> members[k].0 != key
  {
    if members[|members| - 1].0 == key then |members| - 1
    else
      assert HasKey(members[..|members| - 1], key) by {
        var k :| 0 <= k < |members| && members[k].0 == key;
        assert members[..|members| - 1][k].0 == key;
      }
      LastIndex(members[..|members| - 1], key)
  }

  /** A key bound twice is shown once, with its second value. */
  lemma ReprRepeatedKey(key: string, first: Json, second: Json)
    ensures Repr(JObject([(key, first), (key, second)])) == "{'" + key + "': " + Repr(second) + "}"
  {
    var m := [(key, first), (key, second)];
    assert m[1].0 == key && LastIndex(m, key) == 1;
    assert HasKey(m[..1], key) by { assert m[..1][0].0 == key; }
    assert ReprMembers(m, 1) == "";
    assert ReprMembers(m, 0) == "'" + key + "': " + Repr(second);
  }

  // ---------------------------------------------------------------------
  // Truncation and the skills list

  const CvSummaryLimit := 500
  const QuestionLimit := 300
  const AnswerLimit := 500
  const SummaryLimit := 1000
  const SkillLimit := 10

  /** `s` when it has at most `n` characters; otherwise its first `n` characters and "...". */
  function Truncate(s: string, n: nat): (r: string)
    ensures |s| <= n ==> r == s
    ensures n < |s| ==> |r| == n + 3 && r[..n] == s[..n] && r[n..] == "..."
    ensures |r| <= n + 3 && |r| <= |s| + 3
  {
    if |s| > n then s[..n] + "..." else s
  }

  function StrAll(vs: seq<Json>): (r: seq<string>)
    ensures |r| == |vs|
  {
    seq(|vs|, k requires 0 <= k < |vs| => Str(vs[k]))
  }

  /** The first ten skills, each as `str()`, joined with ", ". */
  function SkillsText(skills: seq<Json>): (r: string)
    ensures skills == [] ==> r == ""
    ensures skills != [] ==> |Str(skills[0])| <= |r| && r[..|Str(skills[0])|] == Str(skills[0])
  {
    var shown := if |skills| <= SkillLimit then skills else skills[..SkillLimit];
    Join(", ", StrAll(shown))
  }

  lemma {:induction false} JoinAppend(sep: string, parts: seq<string>, p: string)
    requires parts != []
    ensures Join(sep, parts + [p]) == Join(sep, parts) + sep + p
  {
    if |parts| == 1 {
      assert parts + [p] == [parts[0], p];
    } else {
      assert (parts + [p])[1..] == parts[1..] + [p];
      JoinAppend(sep, parts[1..], p);
    }
  }

  /**
   * The skills text grows one ", "-separated entry per skill for the first
   * ten skills; later skills change nothing.
   */
  lemma SkillsTextAppend(skills: seq<Json>, x: Json)
    ensures |skills| < SkillLimit ==>
      SkillsText(skills + [x]) == if skills == [] then Str(x) else SkillsText(skills) + ", " + Str(x)
    ensures |skills| >= SkillLimit ==> SkillsText(skills + [x]) == SkillsText(skills)
  {
    if |skills| < SkillLimit {
      assert StrAll(skills + [x]) == StrAll(skills) + [Str(x)];
      if skills != [] {
        JoinAppend(", ", StrAll(skills), Str(x));
      }
    } else {
      assert (skills + [x])[..SkillLimit] == skills[..SkillLimit];
    }
  }

  // ---------------------------------------------------------------------
  // The story

  datatype Item = Title(text: string) | Heading(text: string) | Body(text: string) | Spacer(height: nat)

  const ReportTitle: string := "Rapport d'Évaluation Professionnelle"
  const DatePrefix: string := "Généré le : "
  const CvHeading: string := "Aperçu de l'Analyse du CV"
  const CvSummaryPrefix: string := "<b>Résumé Professionnel :</b> "
  const CareerStagePrefix: string := "<b>Niveau de Carrière :</b> "
  const ExperiencePrefix: string := "<b>Années d'Expérience :</b> "
  const SkillsPrefix: string := "<b>Compétences Clés :</b> "
  const QaHeading: string := "Questions et Réponses d'Entretien"
  const ResponsePrefix: string := "<b>Response:</b> "
  const SummaryHeading: string := "Professional Assessment Summary"

  /** The paragraphs of the CV overview: one per present, truthy field, in a fixed order. */
  function CvItems(cv: Json): seq<Item>
  {
    CvOverview(Get(cv, "summary"), Get(cv, "career_stage"), Get(cv, "experience_years"), Get(cv, "key_skills"))
  }

  /** The overview paragraphs for the four field values the CV holds (JNull when absent). */
  function CvOverview(summary: Json, stage: Json, years: Json, skills: Json): (items: seq<Item>)
    ensures |items| == (if Truthy(summary) then 1 else 0) + (if Truthy(stage) then 1 else 0) +
      (if Truthy(years) then 1 else 0) + (if Truthy(skills) && skills.JList? then 1 else 0)
    ensures forall k :: 0 <= k < |items| ==> items[k].Body?
  {
    var a := Paragraph(Truthy(summary), CvSummaryPrefix + Truncate(Str(summary), CvSummaryLimit));
    var b := Paragraph(Truthy(stage), CareerStagePrefix + Str(stage));
    var c := Paragraph(Truthy(years), ExperiencePrefix + Str(years));
    var d := Paragraph(Truthy(skills) && skills.JList?, SkillsPrefix + if skills.JList? then SkillsText(skills.items) else "");
    BodiesAppend(a, b);
    BodiesAppend(a + b, c);
    BodiesAppend(a + b + c, d);
    a + b + c + d
  }

  lemma BodiesAppend(a: seq<Item>, b: seq<Item>)
    requires forall k :: 0 <= k < |a| ==> a[k].Body?
    requires forall k :: 0 <= k < |b| ==> b[k].Body?
    ensures forall k :: 0 <= k < |a + b| ==> (a + b)[k].Body?
  {
  }

  /** One body paragraph holding `text` when `present`, nothing otherwise. */
  function Paragraph(present: bool, text: string): (items: seq<Item>)
    ensures |items| == if present then 1 else 0
    ensures forall k :: 0 <= k < |items| ==> items[k] == Body(text)
  {
    if present then [Body(text)] else []
  }

  /** A falsy field is treated as absent: zero years of experience, say, print nothing. */
  lemma FalsyFieldOmitted(members: seq<(string, Json)>, key: string)
    requires !Truthy(Lookup(members, key))
    ensures CvItems(JObject(members)) == CvItems(JObject(Without(members, key)))
  {
    LookupWithout(members, key, "summary");
    LookupWithout(members, key, "career_stage");
    LookupWithout(members, key, "experience_years");
    LookupWithout(members, key, "key_skills");
  }

  /** A Q&A entry the report prints: a dict with both a question and an answer. */
  predicate ValidQa(entry: Json)
  {
    entry.JObject? && HasKey(entry.members, "question") && HasKey(entry.members, "answer")
  }

  function QuestionLine(number: int, question: Json): string
  {
    "<b>Question " + IntToString(number) + ":</b> " + Truncate(Str(question), QuestionLimit)
  }

  /** The items of the entry numbered `number`: question, response and a spacer, or nothing. */
  function QaEntry(entry: Json, number: int): (items: seq<Item>)
    ensures |items| == if ValidQa(entry) then 3 else 0
  {
    if ValidQa(entry) then
      [Body(QuestionLine(number, Get(entry, "question"))),
       Body(ResponsePrefix + Truncate(Str(Get(entry, "answer")), AnswerLimit)),
       Spacer(12)]
    else []
  }

  /** The entries of `qa`, numbered by position from `first`. */
  function QaItems(qa: seq<Json>, first: int): seq<Item>
  {
    if qa == [] then [] else QaEntry(qa[0], first) + QaItems(qa[1..], first + 1)
  }

  function ValidCount(qa: seq<Json>): nat
  {
    if qa == [] then 0 else (if ValidQa(qa[0]) then 1 else 0) + ValidCount(qa[1..])
  }

  /** Numbering continues across a split of the list: the second part starts where the first stops. */
  lemma {:induction false} QaItemsAppend(a: seq<Json>, b: seq<Json>, first: int)
    ensures QaItems(a + b, first) == QaItems(a, first) + QaItems(b, first + |a|)
  {
    if a == [] {
      assert a + b == b;
    } else {
      var head := QaEntry(a[0], first);
      assert (a + b)[0] == a[0] && (a + b)[1..] == a[1..] + b;
      calc {
        QaItems(a + b, first);
        head + QaItems(a[1..] + b, first + 1);
        { QaItemsAppend(a[1..], b, first + 1); }
        head + (QaItems(a[1..], first + 1) + QaItems(b, first + |a|));
        { AppendRegroup(head, QaItems(a[1..], first + 1), QaItems(b, first + |a|)); }
        head + QaItems(a[1..], first + 1) + QaItems(b, first + |a|);
        QaItems(a, first) + QaItems(b, first + |a|);
      }
    }
  }

  lemma QaItemsStep(qa: seq<Json>, i: nat)
    requires i < |qa|
    ensures QaItems(qa[..i + 1], 1) == QaItems(qa[..i], 1) + QaEntry(qa[i], i + 1)
  {
    assert qa[..i + 1] == qa[..i] + [qa[i]];
    QaItemsAppend(qa[..i], [qa[i]], 1);
    assert QaItems([qa[i]], 1 + i) == QaEntry(qa[i], 1 + i) + QaItems([], 2 + i);
  }

  /** Each printable entry contributes exactly three items; the others none. */
  lemma {:induction false} QaItemsLength(qa: seq<Json>, first: int)
    ensures |QaItems(qa, first)| == 3 * ValidCount(qa)
  {
    if qa != [] {
      QaItemsLength(qa[1..], first + 1);
    }
  }

  /**
   * The entry at position k, when printable, appears right after the items
   * of the printable entries before it, and carries the number k + 1: a
   * skipped entry still uses up its number.
   */
  lemma QaEntryPosition(qa: seq<Json>, k: nat)
    requires k < |qa| && ValidQa(qa[k])
    ensures var at := 3 * ValidCount(qa[..k]);
      at + 3 <= |QaItems(qa, 1)| &&
      QaItems(qa, 1)[at..at + 3] == QaEntry(qa[k], k + 1) &&
      QaItems(qa, 1)[at] == Body(QuestionLine(k + 1, Get(qa[k], "question")))
  {
    var before, after := qa[..k], qa[k + 1..];
    var entry := QaEntry(qa[k], k + 1);
    SplitAt(qa, k);
    QaItemsAppend(before, [qa[k]] + after, 1);
    QaItemsAppend([qa[k]], after, 1 + k);
    QaItemsSingle(qa[k], 1 + k);
    QaItemsLength(before, 1);
    MiddleSlice(QaItems(before, 1), entry, QaItems(after, 1 + k + 1));
    assert QaItems(qa, 1)[3 * ValidCount(before)] == entry[0];
  }

  /** A one-entry list gives exactly that entry's items. */
  lemma QaItemsSingle(entry: Json, number: int)
    ensures QaItems([entry], number) == QaEntry(entry, number)
  {
    assert [entry][1..] == [];
  }

  /** A sequence is its part before `k`, its element at `k` and its part after `k`. */
  lemma SplitAt<T>(s: seq<T>, k: nat)
    requires k < |s|
    ensures s == s[..k] + ([s[k]] + s[k + 1..])
  {
  }

  /** The middle part of a three-part concatenation sits right after the first part. */
  lemma MiddleSlice<T>(a: seq<T>, m: seq<T>, b: seq<T>)
    ensures |a| + |m| <= |a + (m + b)| && (a + (m + b))[|a|..|a| + |m|] == m
  {
  }

  function SummaryItems(summary: string): seq<Item>
  {
    if summary != "" then [Heading(SummaryHeading), Body(Truncate(summary, SummaryLimit))] else []
  }

  function Preamble(date: string): seq<Item>
  {
    [Title(ReportTitle), Spacer(20), Body(DatePrefix + date), Spacer(20), Heading(CvHeading)]
  }

  /** The whole story of a report generated on `date`. */
  function ReportStory(cv: Json, qa: seq<Json>, summary: string, date: string): seq<Item>
  {
    Preamble(date) + CvItems(cv) + [Spacer(20), Heading(QaHeading)] + QaItems(qa, 1) + SummaryItems(summary)
  }

  /**
   * The report's layout: five opening items, the CV paragraphs, a spacer and
   * the Q&A heading, three items per printable entry, and the summary heading
   * and text only when there is a summary.
   */
  lemma ReportShape(cv: Json, qa: seq<Json>, summary: string, date: string)
    ensures var story := ReportStory(cv, qa, summary, date);
      |story| == 7 + |CvItems(cv)| + 3 * ValidCount(qa) + (if summary != "" then 2 else 0) &&
      story[6 + |CvItems(cv)|] == Heading(QaHeading) &&
      (summary != "" ==> story[|story| - 2] == Heading(SummaryHeading) &&
                         story[|story| - 1] == Body(Truncate(summary, SummaryLimit))) &&
      (summary == "" ==> forall k :: 0 <= k < |story| ==> story[k] != Heading(SummaryHeading))
  {
    QaItemsLength(qa, 1);
    if summary == "" {
      var qaItems := QaItems(qa, 1);
      assert SummaryItems("") == [];
      forall j | 0 <= j < |qaItems| ensures !qaItems[j].Heading? {
        QaItemsNoHeading(qa, 1, j);
      }
      NoSummaryHeading(date, CvItems(cv), qaItems);
    }
  }

  /** Between the preamble and the summary, only body paragraphs and the Q&A heading can appear. */
  lemma NoSummaryHeading(date: string, cvItems: seq<Item>, qaItems: seq<Item>)
    requires forall j :: 0 <= j < |cvItems| ==> cvItems[j].Body?
    requires forall j :: 0 <= j < |qaItems| ==> !qaItems[j].Heading?
    ensures var story := Preamble(date) + cvItems + [Spacer(20), Heading(QaHeading)] + qaItems;
      forall k :: 0 <= k < |story| ==> story[k] != Heading(SummaryHeading)
  {
    var story := Preamble(date) + cvItems + [Spacer(20), Heading(QaHeading)] + qaItems;
    forall k | 0 <= k < |story| ensures story[k] != Heading(SummaryHeading) {
      if k < 5 {
        assert story[k] == Preamble(date)[k];
        assert CvHeading[0] != SummaryHeading[0];
      } else if k < 5 + |cvItems| {
        assert story[k] == cvItems[k - 5];
      } else if k < 7 + |cvItems| {
        assert QaHeading[0] != SummaryHeading[0];
      } else {
        assert story[k] == qaItems[k - 7 - |cvItems|];
      }
    }
  }

  lemma {:induction false} QaItemsNoHeading(qa: seq<Json>, first: int, k: nat)
    requires k < |QaItems(qa, first)|
    ensures !QaItems(qa, first)[k].Heading?
  {
    if qa != [] {
      var e := QaEntry(qa[0], first);
      if k >= |e| {
        QaItemsNoHeading(qa[1..], first + 1, k - |e|);
      }
    }
  }

  /** Appends the CV overview paragraphs: one per truthy field, the summary truncated, at most ten skills. */
  method AppendCvOverview(story: seq<Item>, cv: Json) returns (items: seq<Item>)
    ensures items == story + CvItems(cv)
  {
    items := story;
    if !Truthy(cv) {
      FalsyCvHasNoItems(cv);
      return;
    }
    var summary := Get(cv, "summary");
    var stage := Get(cv, "career_stage");
    var years := Get(cv, "experience_years");
    var skills := Get(cv, "key_skills");
    if Truthy(summary) {
      items := items + [Body(CvSummaryPrefix + Truncate(Str(summary), CvSummaryLimit))];
    }
    ghost var upToSummary := items;
    if Truthy(stage) {
      items := items + [Body(CareerStagePrefix + Str(stage))];
    }
    ghost var upToStage := items;
    if Truthy(years) {
      items := items + [Body(ExperiencePrefix + Str(years))];
    }
    ghost var upToYears := items;
    if Truthy(skills) && skills.JList? {
      items := items + [Body(SkillsPrefix + SkillsText(skills.items))];
    }
    ghost var a := Paragraph(Truthy(summary), CvSummaryPrefix + Truncate(Str(summary), CvSummaryLimit));
    ghost var b := Paragraph(Truthy(stage), CareerStagePrefix + Str(stage));
    ghost var c := Paragraph(Truthy(years), ExperiencePrefix + Str(years));
    ghost var d := Paragraph(Truthy(skills) && skills.JList?, SkillsPrefix + if skills.JList? then SkillsText(skills.items) else "");
    assert upToSummary == story + a;
    assert upToStage == upToSummary + b;
    assert upToYears == upToStage + c;
    assert items == upToYears + d;
    AppendRegroup(story, a, b);
    AppendRegroup(story, a + b, c);
    AppendRegroup(story, a + b + c, d);
    assert a + b + c + d == CvOverview(summary, stage, years, skills);
  }

  /** Appending two pieces one after the other appends their concatenation. */
  lemma AppendRegroup<T>(s: seq<T>, a: seq<T>, b: seq<T>)
    ensures s + a + b == s + (a + b)
  {
  }

  /** A falsy CV (None, an empty dict, ...) contributes no overview paragraph. */
  lemma FalsyCvHasNoItems(cv: Json)
    requires !Truthy(cv)
    ensures CvItems(cv) == []
  {
    if cv.JObject? {
      assert cv.members == [];
    }
    assert !Truthy(Get(cv, "summary")) && !Truthy(Get(cv, "career_stage"));
    assert !Truthy(Get(cv, "experience_years")) && !Truthy(Get(cv, "key_skills"));
  }

  /** Appends the numbered Q&A entries, skipping those that are not dicts with a question and an answer. */
  method AppendQa(story: seq<Item>, qa: seq<Json>) returns (items: seq<Item>)
    ensures items == story + QaItems(qa, 1)
  {
    items := story;
    for i := 0 to |qa|
      invariant items == story + QaItems(qa[..i], 1)
    {
      ghost var previous := items;
      var entry := qa[i];
      if ValidQa(entry) {
        items := items + [Body(QuestionLine(i + 1, Get(entry, "question")))];
        items := items + [Body(ResponsePrefix + Truncate(Str(Get(entry, "answer")), AnswerLimit))];
        items := items + [Spacer(12)];
      }
      assert items == previous + QaEntry(entry, i + 1);
      QaItemsStep(qa, i);
      AppendRegroup(story, QaItems(qa[..i], 1), QaEntry(entry, i + 1));
    }
    assert qa[..|qa|] == qa;
  }

  /** Appends the summary heading and the truncated summary, only when there is a summary. */
  method AppendSummary(story: seq<Item>, summary: string) returns (items: seq<Item>)
    ensures items == story + SummaryItems(summary)
  {
    items := story;
    if summary != "" {
      items := items + [Heading(SummaryHeading)];
      items := items + [Body(Truncate(summary, SummaryLimit))];
    }
  }

  /**
   * Builds the report's story. A truthy CV analysis that is not a dict fails
   * the opening log line, and then no report is produced.
   */
  method GenerateReport(cv: Json, qa: seq<Json>, summary: string, date: string) returns (story: Option<seq<Item>>)
    ensures story == if Truthy(cv) && !cv.JObject? then None else Some(ReportStory(cv, qa, summary, date))
  {
    if Truthy(cv) && !cv.JObject? {
      return None;
    }
    var items := [Title(ReportTitle), Spacer(20)];
    items := items + [Body(DatePrefix + date), Spacer(20)];
    items := items + [Heading(CvHeading)];
    ghost var opening := items;
    items := AppendCvOverview(items, cv);
    items := items + [Spacer(20)];
    items := items + [Heading(QaHeading)];
    ghost var upToQa := items;
    items := AppendQa(items, qa);
    ghost var body := items;
    items := AppendSummary(items, summary);
    ReportStoryParts(cv, qa, summary, date, opening, upToQa, body, items);
    story := Some(items);
  }

  lemma ReportStoryParts(cv: Json, qa: seq<Json>, summary: string, date: string,
                         opening: seq<Item>, upToQa: seq<Item>, body: seq<Item>, all: seq<Item>)
    requires opening == Preamble(date)
    requires upToQa == opening + CvItems(cv) + [Spacer(20), Heading(QaHeading)]
    requires body == upToQa + QaItems(qa, 1)
    requires all == body + SummaryItems(summary)
    ensures all == ReportStory(cv, qa, summary, date)
  {
  }

  const FilenamePrefix: string := "assessment_report_"
  const FilenameSuffix: string := ".pdf"

  /** The report file name for a session, given the formatted time of creation. */
  function ReportFilename(sessionId: string, timestamp: string): (name: string)
    ensures |name| == |FilenamePrefix| + |sessionId| + 1 + |timestamp| + |FilenameSuffix|
  {
    FilenamePrefix + sessionId + "_" + timestamp + FilenameSuffix
  }

  /** The session id read back from a report file name whose timestamp has `stampLength` characters. */
  function SessionIdOf(name: string, stampLength: nat): string
  {
    var tail := 1 + stampLength + |FilenameSuffix|;
    if |FilenamePrefix| + tail <= |name| then name[|FilenamePrefix|..|name| - tail] else ""
  }

  /** The session id and timestamp can be read back from the file name. */
  lemma ReportFilenameRoundTrip(sessionId: string, timestamp: string)
    ensures SessionIdOf(ReportFilename(sessionId, timestamp), |timestamp|) == sessionId
    ensures var name := ReportFilename(sessionId, timestamp);
      name[|name| - |timestamp| - |FilenameSuffix|..|name| - |FilenameSuffix|] == timestamp
  {
    var name := ReportFilename(sessionId, timestamp);
    assert name == FilenamePrefix + (sessionId + ("_" + (timestamp + FilenameSuffix)));
    assert name[|FilenamePrefix|..|name| - (1 + |timestamp| + |FilenameSuffix|)] == sessionId;
  }

  /** Different sessions never share a file name when their timestamps have the same length. */
  lemma ReportFilenameInjective(a: string, b: string, t1: string, t2: string)
    requires |t1| == |t2| && ReportFilename(a, t1) == ReportFilename(b, t2)
    ensures a == b && t1 == t2
  {
    ReportFilenameRoundTrip(a, t1);
    ReportFilenameRoundTrip(b, t2);
  }
}
