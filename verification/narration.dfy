/** `generate_audio_summary`: the narration script built from the analysis
    dictionary. An error record gets a fixed apology; otherwise fixed-template
    clauses follow one another in a fixed order, each present under its own
    condition, with literal defaults for missing keys. */
module Narration {
  import opened Json
  import opened Text
  import opened Display

  // Written in pieces: the verifier reads characters out of short literals only.
  const Apology: string :=
    "An error occurred during the " + "dental analysis. Please try " + "again with a different image."

  /** One sentence of the narration. */
  datatype Clause =
    | Summary(stage: string, severity: string)
    | Emergency(level: string)
    | Issues(issues: seq<string>)
    | Treatments(treatments: seq<string>)
    | HomeCare(steps: seq<string>)
    | Visit(timeline: string)

  /** Position of each kind of clause in the fixed order. */
  function Rank(c: Clause): nat {
    match c
    case Summary(_, _) => 0
    case Emergency(_) => 1
    case Issues(_) => 2
    case Treatments(_) => 3
    case HomeCare(_) => 4
    case Visit(_) => 5
  }

  /** A list read aloud: every entry, separated by ", ". */
  function SpokenList(xs: seq<string>): string {
    Join(xs, ", ")
  }

  /** The text of one clause. */
  function Speak(c: Clause): string {
    match c
    case Summary(stage, severity) =>
      "Dental Analysis Summary. Cavity stage: " + stage + ". Severity level: " + severity + "."
    case Emergency(level) =>
      " Emergency level: " + level + ". Immediate dental attention is recommended."
    case Issues(xs) => " Visible issues include: " + SpokenList(xs) + "."
    case Treatments(xs) => " Recommended treatments: " + SpokenList(xs) + "."
    case HomeCare(xs) => " Home care instructions: " + SpokenList(xs) + "."
    case Visit(timeline) => " When to see dentist: " + timeline + "."
  }

  /** The text of a sequence of clauses, one after the other. */
  function SpeakAll(cs: seq<Clause>): string {
    if |cs| == 0 then "" else Speak(cs[0]) + SpeakAll(cs[1..])
  }

  /** The text of a clause the source appends only under a condition. */
  function SpeakIf(b: bool, c: Clause): string {
    if b then Speak(c) else ""
  }

  /** `generate_audio_summary`, in the order the source appends to the summary. */
  function Narrate(a: Object): (r: string)
    requires "error" !in a ==> Conforms(a)
    ensures "error" in a ==> r == Apology
    ensures "error" !in a ==> Speak(Summary(Stage(a), Severity(a))) <= r
    ensures "error" !in a ==> EndsWith(r, Speak(Visit(Timeline(a))))
  {
    if "error" in a then Apology
    else
      var emergency := EmergencyLevel(a);
      var issues := GetList(a, "visible_issues");
      var treatments := GetList(a, "recommended_treatments");
      var homeCare := GetList(a, "home_care_instructions");
      var head := Speak(Summary(Stage(a), Severity(a)));
      var middle := SpeakIf(IsEmergency(emergency), Emergency(emergency))
                    + SpeakIf(issues != [], Issues(issues))
                    + SpeakIf(treatments != [], Treatments(treatments))
                    + SpeakIf(homeCare != [], HomeCare(homeCare));
      var tail := Speak(Visit(Timeline(a)));
      Framed(head, middle, tail);
      head + middle + tail
  }

  /** The clauses come in strictly increasing rank: the fixed order, each kind at most once. */
  ghost predicate Ordered(cs: seq<Clause>) {
    forall i, j :: 0 <= i < j < |cs| ==> Rank(cs[i]) < Rank(cs[j])
  }

  /** Whether the source includes a clause: the summary and the visit sentence always,
      the emergency sentence for the alert levels, a list sentence for a non-empty list. */
  predicate Keep(c: Clause) {
    match c
    case Summary(_, _) => true
    case Emergency(level) => IsEmergency(level)
    case Issues(xs) => xs != []
    case Treatments(xs) => xs != []
    case HomeCare(xs) => xs != []
    case Visit(_) => true
  }

  /** Every clause the narration could have for an analysis, one of each kind, in rank order. */
  function Candidates(a: Object): (cs: seq<Clause>)
    requires Conforms(a)
    ensures |cs| == 6 && forall k :: 0 <= k < 6 ==> Rank(cs[k]) == k
  {
    [ Summary(Stage(a), Severity(a)),
      Emergency(EmergencyLevel(a)),
      Issues(GetList(a, "visible_issues")),
      Treatments(GetList(a, "recommended_treatments")),
      HomeCare(GetList(a, "home_care_instructions")),
      Visit(Timeline(a)) ]
  }

  /** The clauses of `cs` the source includes, in their original order. */
  function Filter(cs: seq<Clause>): (r: seq<Clause>)
    ensures |r| <= |cs|
    ensures forall c :: c in r <==> c in cs && Keep(c)
  {
    if |cs| == 0 then []
    else if Keep(cs[0]) then [cs[0]] + Filter(cs[1..])
    else Filter(cs[1..])
  }

  /** Filtering keeps the order of what it keeps. */
  lemma {:induction false} FilterOrdered(cs: seq<Clause>)
    requires Ordered(cs)
    ensures Ordered(Filter(cs))
  {
    if |cs| > 0 {
      var rest := Filter(cs[1..]);
      assert Ordered(cs[1..]);
      FilterOrdered(cs[1..]);
      if Keep(cs[0]) {
        forall i | 0 <= i < |rest| ensures Rank(cs[0]) < Rank(rest[i]) {
          assert rest[i] in cs[1..];
        }
        assert Filter(cs) == [cs[0]] + rest;
      }
    }
  }

  /** A kept last candidate is the last clause spoken. */
  lemma {:induction false} FilterLast(cs: seq<Clause>)
    requires |cs| > 0 && Keep(cs[|cs| - 1])
    ensures |Filter(cs)| > 0 && Filter(cs)[|Filter(cs)| - 1] == cs[|cs| - 1]
  {
    if |cs| > 1 {
      FilterLast(cs[1..]);
    }
  }

  /** The clauses the narration of a non-error analysis consists of: the candidates
      the source includes, in the fixed order, from the summary to the visit sentence. */
  function Plan(a: Object): (p: seq<Clause>)
    requires Conforms(a)
    ensures 2 <= |p| <= 6 && Ordered(p)
    ensures p[0] == Summary(Stage(a), Severity(a))
    ensures p[|p| - 1] == Visit(Timeline(a))
    ensures forall c :: c in p <==> c in Candidates(a) && Keep(c)
  {
    var cs := Candidates(a);
    FilterOrdered(cs);
    FilterLast(cs);
    var p := Filter(cs);
    assert p[0] == cs[0];
    assert Rank(p[0]) != Rank(p[|p| - 1]);
    p
  }

  // ---------------------------------------------------------------------------
  // Properties
  // ---------------------------------------------------------------------------

  /** Speaking two runs of clauses is speaking one after the other. */
  lemma {:induction false} SpeakAllAppend(xs: seq<Clause>, ys: seq<Clause>)
    ensures SpeakAll(xs + ys) == SpeakAll(xs) + SpeakAll(ys)
  {
    if |xs| > 0 {
      SpeakAllAppend(xs[1..], ys);
      assert (xs + ys)[1..] == xs[1..] + ys;
      assert SpeakAll(xs + ys) == Speak(xs[0]) + SpeakAll(xs[1..] + ys);
    } else {
      assert xs + ys == ys;
    }
  }

  /** Speaking the kept clauses is speaking each candidate exactly when it is kept. */
  lemma {:induction false} SpeakFiltered(cs: seq<Clause>)
    ensures SpeakAll(Filter(cs)) == SpeakKept(cs)
  {
    if |cs| > 0 {
      SpeakFiltered(cs[1..]);
      if Keep(cs[0]) {
        assert Filter(cs) == [cs[0]] + Filter(cs[1..]);
        assert ([cs[0]] + Filter(cs[1..]))[1..] == Filter(cs[1..]);
      }
    }
  }

  /** Each candidate in turn, spoken when the source includes it. */
  function SpeakKept(cs: seq<Clause>): string {
    if |cs| == 0 then "" else SpeakIf(Keep(cs[0]), cs[0]) + SpeakKept(cs[1..])
  }

  /** Speaking six candidates when kept, unrolled. */
  lemma SpeakKeptSix(cs: seq<Clause>)
    requires |cs| == 6
    ensures SpeakKept(cs) == SpeakIf(Keep(cs[0]), cs[0]) + (SpeakIf(Keep(cs[1]), cs[1])
                             + (SpeakIf(Keep(cs[2]), cs[2]) + (SpeakIf(Keep(cs[3]), cs[3])
                             + (SpeakIf(Keep(cs[4]), cs[4]) + (SpeakIf(Keep(cs[5]), cs[5]) + "")))))
  {
    assert cs[5..][1..] == [];
    assert SpeakKept(cs[5..]) == SpeakIf(Keep(cs[5]), cs[5]) + "";
    assert cs[4..][1..] == cs[5..];
    assert SpeakKept(cs[4..]) == SpeakIf(Keep(cs[4]), cs[4]) + SpeakKept(cs[5..]);
    assert cs[3..][1..] == cs[4..];
    assert SpeakKept(cs[3..]) == SpeakIf(Keep(cs[3]), cs[3]) + SpeakKept(cs[4..]);
    assert cs[2..][1..] == cs[3..];
    assert SpeakKept(cs[2..]) == SpeakIf(Keep(cs[2]), cs[2]) + SpeakKept(cs[3..]);
    assert cs[1..][1..] == cs[2..];
    assert SpeakKept(cs[1..]) == SpeakIf(Keep(cs[1]), cs[1]) + SpeakKept(cs[2..]);
  }

  /** The narration of a non-error analysis is exactly its planned clauses, spoken in order. */
  lemma NarrateFollowsPlan(a: Object)
    requires "error" !in a && Conforms(a)
    ensures Narrate(a) == SpeakAll(Plan(a))
  {
    var cs := Candidates(a);
    SpeakFiltered(cs);
    SpeakKeptSix(cs);
    var x0, x1, x2 := SpeakIf(Keep(cs[0]), cs[0]), SpeakIf(Keep(cs[1]), cs[1]), SpeakIf(Keep(cs[2]), cs[2]);
    var x3, x4, x5 := SpeakIf(Keep(cs[3]), cs[3]), SpeakIf(Keep(cs[4]), cs[4]), SpeakIf(Keep(cs[5]), cs[5]);
    Regroup(x0, x1, x2, x3, x4, x5);
    assert Plan(a) == Filter(cs);
  }

  /** The summary sentence opens with a capital D, the apology with an A. */
  lemma SummaryOpening(stage: string, severity: string)
    ensures |Speak(Summary(stage, severity))| > 0 && Speak(Summary(stage, severity))[0] == 'D'
    ensures Apology[0] == 'A'
  {
  }

  /** The apology is spoken exactly for error records. */
  lemma ApologyOnlyForErrors(a: Object)
    requires "error" !in a ==> Conforms(a)
    ensures Narrate(a) == Apology <==> "error" in a
  {
    if "error" !in a {
      var r := Narrate(a);
      var head := Speak(Summary(Stage(a), Severity(a)));
      SummaryOpening(Stage(a), Severity(a));
      assert head <= r;
      assert r[0] == head[0];
    }
  }

  /** Speaking a run of clauses keeps the text of each clause, in place. */
  lemma {:induction false} SpeakAllKeeps(cs: seq<Clause>, k: nat)
    requires k < |cs|
    ensures OccursAt(SpeakAll(cs), Speak(cs[k]), |SpeakAll(cs[..k])|)
  {
    assert cs == cs[..k] + [cs[k]] + cs[k + 1..];
    SpeakAllAppend(cs[..k] + [cs[k]], cs[k + 1..]);
    SpeakAllAppend(cs[..k], [cs[k]]);
    assert SpeakAll([cs[k]]) == Speak(cs[k]) + SpeakAll([]);
    OccursInContext(SpeakAll(cs[..k]), Speak(cs[k]), SpeakAll(cs[k + 1..]), Speak(cs[k]), 0);
  }

  /** A list clause keeps every entry of its list whole. */
  lemma ListClauseKeepsEntries(lead: string, xs: seq<string>, i: nat)
    requires i < |xs|
    ensures exists p :: OccursAt(lead + SpokenList(xs) + ".", xs[i], p)
  {
    var pos := if i == 0 then 0 else |Join(xs[..i], ", ")| + |", "|;
    JoinEntry(xs, ", ", i);
    OccursInContext(lead, SpokenList(xs), ".", xs[i], pos);
  }

  /** Every sentence of the plan is spoken, whole, in the narration. */
  lemma ClauseSpoken(a: Object, c: Clause)
    requires "error" !in a && Conforms(a)
    requires c in Plan(a)
    ensures Contains(Narrate(a), Speak(c))
  {
    var p := Plan(a);
    var k :| 0 <= k < |p| && p[k] == c;
    NarrateFollowsPlan(a);
    SpeakAllKeeps(p, k);
  }

  /** The words a list sentence opens with. */
  function ListLead(c: Clause): string
    requires c.Issues? || c.Treatments? || c.HomeCare?
  {
    match c
    case Issues(_) => " Visible issues include: "
    case Treatments(_) => " Recommended treatments: "
    case HomeCare(_) => " Home care instructions: "
  }

  /** The entries a list sentence reads out. */
  function Entries(c: Clause): seq<string>
    requires c.Issues? || c.Treatments? || c.HomeCare?
  {
    match c
    case Issues(xs) => xs
    case Treatments(xs) => xs
    case HomeCare(xs) => xs
  }

  /** The text of a list sentence: its lead, the spoken list and a full stop. */
  lemma ListClauseText(c: Clause)
    requires c.Issues? || c.Treatments? || c.HomeCare?
    ensures Speak(c) == ListLead(c) + SpokenList(Entries(c)) + "."
  {
  }

  /** Every visible issue, every treatment and every home-care step of a non-error
      analysis is spoken whole: the lists are not truncated. */
  lemma EveryEntrySpoken(a: Object, key: string, i: nat)
    requires "error" !in a && Conforms(a)
    requires key == "visible_issues" || key == "recommended_treatments" || key == "home_care_instructions"
    requires i < |GetList(a, key)|
    ensures Contains(Narrate(a), GetList(a, key)[i])
  {
    var xs := GetList(a, key);
    var cs := Candidates(a);
    var j := if key == "visible_issues" then 2 else if key == "recommended_treatments" then 3 else 4;
    var c := cs[j];
    assert Keep(c) && c in cs;
    ClauseSpoken(a, c);
    ListClauseText(c);
    ListClauseKeepsEntries(ListLead(c), xs, i);
    var q :| OccursAt(Speak(c), xs[i], q);
    var q' :| OccursAt(Narrate(a), Speak(c), q');
    OccursWithin(Narrate(a), Speak(c), xs[i], q', q);
  }

  /** Which sentences the narration has, and what they say: the emergency sentence
      exactly for the levels "High" and "Critical" (case-sensitive, default "None"),
      each list sentence exactly for a non-empty list, each carrying its field's value. */
  lemma PlanClauses(a: Object)
    requires Conforms(a)
    ensures var p := Plan(a);
      && ((exists k :: 0 <= k < |p| && p[k].Emergency?) <==> IsEmergency(EmergencyLevel(a)))
      && ((exists k :: 0 <= k < |p| && p[k].Issues?) <==> GetList(a, "visible_issues") != [])
      && ((exists k :: 0 <= k < |p| && p[k].Treatments?) <==> GetList(a, "recommended_treatments") != [])
      && ((exists k :: 0 <= k < |p| && p[k].HomeCare?) <==> GetList(a, "home_care_instructions") != [])
      && forall k :: 0 <= k < |p| ==> p[k] in Candidates(a)
  {
    var p := Plan(a);
    var cs := Candidates(a);
    assert Keep(cs[1]) <==> IsEmergency(EmergencyLevel(a));
    assert Keep(cs[2]) <==> GetList(a, "visible_issues") != [];
    assert Keep(cs[3]) <==> GetList(a, "recommended_treatments") != [];
    assert Keep(cs[4]) <==> GetList(a, "home_care_instructions") != [];
    forall k | 0 <= k < |p| ensures p[k] in cs && Keep(p[k]) {
      assert p[k] in p;
    }
    forall j | 0 <= j < 6 && Keep(cs[j]) ensures exists k :: 0 <= k < |p| && p[k] == cs[j] {
      assert cs[j] in p;
    }
    forall k | 0 <= k < |p| ensures p[k] == cs[Rank(p[k])] {
      var j :| 0 <= j < 6 && cs[j] == p[k];
    }
  }

  /** The sentence of each kind that the narration has is the one built from the
      analysis: the emergency sentence names the analysis's own level, the list
      sentences carry the analysis's own lists. */
  lemma PlanContents(a: Object, k: nat)
    requires Conforms(a) && k < |Plan(a)|
    ensures var c := Plan(a)[k];
      && (c.Emergency? ==> c == Emergency(EmergencyLevel(a)) && IsEmergency(c.level))
      && (c.Issues? ==> c == Issues(GetList(a, "visible_issues")) && c.issues != [])
      && (c.Treatments? ==> c == Treatments(GetList(a, "recommended_treatments")) && c.treatments != [])
      && (c.HomeCare? ==> c == HomeCare(GetList(a, "home_care_instructions")) && c.steps != [])
  {
    var p := Plan(a);
    var cs := Candidates(a);
    assert p[k] in p;
    var j :| 0 <= j < 6 && cs[j] == p[k];
  }
}
