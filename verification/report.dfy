/** The downloadable plain-text report built inline in `main`: a fixed template
    filled from the analysis dictionary and a caller-supplied timestamp. */
module Report {
  import opened Json
  import opened Text

  /** The bullet before each list entry, as the template's text has it: the three
      characters U+201A U+00C4 U+00A2 (a mis-decoded bullet sign) and a space. */
  const Bullet: string := "\U{201A}\U{00C4}\U{00A2} "

  /** The indentation before the template's closing quotes, which ends the report. */
  const Indent: string := "                        "

  /** One bullet line per entry. */
  function BulletItems(xs: seq<string>): (ys: seq<string>)
    ensures |ys| == |xs|
    ensures forall k :: 0 <= k < |xs| ==> ys[k] == Bullet + xs[k]
  {
    seq(|xs|, k requires 0 <= k < |xs| => Bullet + xs[k])
  }

  /** A titled list block of the template: the title line, then the bullets joined
      by newlines (nothing at all for an empty list). */
  function Section(title: string, xs: seq<string>): string {
    title + "\n" + Join(BulletItems(xs), "\n")
  }

  /** The top block of the template: title, timestamp and the three summary fields.
      Literals are kept one per line of the template, with each line break on its own. */
  function Header(a: Object, timestamp: string): string
    requires Conforms(a)
  {
    "\n" + "DENTAL ANALYSIS REPORT" + "\n" + "Generated: " + timestamp + "\n"
    + "\n" + "Cavity Stage: " + Stage(a) + "\n"
    + "Severity: " + Severity(a) + "\n"
    + "Emergency Level: " + EmergencyLevel(a) + "\n"
  }

  /** The closing line of the template, after the last list block. */
  function Closing(a: Object): string
    requires Conforms(a)
  {
    "\n" + "When to See Dentist: " + Timeline(a) + "\n" + Indent
  }

  /** The five titled list blocks, separated by a blank line. */
  function Sections(a: Object): string
    requires Conforms(a)
  {
    Section("Visible Issues:", GetList(a, "visible_issues"))
    + "\n" + "\n" + Section("Possible Causes:", GetList(a, "possible_causes"))
    + "\n" + "\n" + Section("Recommended Treatments:", GetList(a, "recommended_treatments"))
    + "\n" + "\n" + Section("Prevention Tips:", GetList(a, "prevention_tips"))
    + "\n" + "\n" + Section("Home Care Instructions:", GetList(a, "home_care_instructions"))
  }

  /** The report text, block by block as the template lays it out: the top block, a
      blank line, the list blocks, and the closing line. */
  function Render(a: Object, timestamp: string): (r: string)
    requires Conforms(a)
    ensures Header(a, timestamp) <= r
    ensures EndsWith(r, Closing(a))
  {
    var middle := "\n" + Sections(a) + "\n";
    Framed(Header(a, timestamp), middle, Closing(a));
    Header(a, timestamp) + middle + Closing(a)
  }

  // ---------------------------------------------------------------------------
  // The report line by line
  // ---------------------------------------------------------------------------

  /** The lines of a titled list block: the title, then one bullet line per entry,
      or a single empty line for an empty list. */
  function SectionLines(title: string, xs: seq<string>): (ls: seq<string>)
    ensures |ls| >= 2 && ls[0] == title
  {
    [title] + if xs == [] then [""] else BulletItems(xs)
  }

  /** The lines of the top block. */
  function HeaderLines(a: Object, timestamp: string): seq<string>
    requires Conforms(a)
  {
    [ "", "DENTAL ANALYSIS REPORT", "Generated: " + timestamp, "",
      "Cavity Stage: " + Stage(a), "Severity: " + Severity(a),
      "Emergency Level: " + EmergencyLevel(a), "" ]
  }

  /** The closing lines: a blank line, the dentist-visit line, and the indentation. */
  function ClosingLines(a: Object): seq<string>
    requires Conforms(a)
  {
    [ "", "When to See Dentist: " + Timeline(a), Indent ]
  }

  /** The report as the sequence of its lines, top to bottom. */
  function Lines(a: Object, timestamp: string): seq<string>
    requires Conforms(a)
  {
    HeaderLines(a, timestamp) + SectionsLines(a) + ClosingLines(a)
  }

  /** The lines of the five list blocks, with a blank line between blocks. */
  function SectionsLines(a: Object): seq<string>
    requires Conforms(a)
  {
    SectionLines("Visible Issues:", GetList(a, "visible_issues")) + [""]
    + SectionLines("Possible Causes:", GetList(a, "possible_causes")) + [""]
    + SectionLines("Recommended Treatments:", GetList(a, "recommended_treatments")) + [""]
    + SectionLines("Prevention Tips:", GetList(a, "prevention_tips")) + [""]
    + SectionLines("Home Care Instructions:", GetList(a, "home_care_instructions"))
  }

  /** No line break in a text. */
  predicate OneLine(s: string) {
    '\n' !in s
  }

  /** Every value the report prints sits on one line. */
  ghost predicate SingleLineValues(a: Object, timestamp: string)
    requires Conforms(a)
  {
    && OneLine(timestamp) && OneLine(Stage(a)) && OneLine(Severity(a))
    && OneLine(EmergencyLevel(a)) && OneLine(Timeline(a))
    && (forall k :: 0 <= k < |GetList(a, "visible_issues")| ==> OneLine(GetList(a, "visible_issues")[k]))
    && (forall k :: 0 <= k < |GetList(a, "possible_causes")| ==> OneLine(GetList(a, "possible_causes")[k]))
    && (forall k :: 0 <= k < |GetList(a, "recommended_treatments")| ==> OneLine(GetList(a, "recommended_treatments")[k]))
    && (forall k :: 0 <= k < |GetList(a, "prevention_tips")| ==> OneLine(GetList(a, "prevention_tips")[k]))
    && (forall k :: 0 <= k < |GetList(a, "home_care_instructions")| ==> OneLine(GetList(a, "home_care_instructions")[k]))
  }

  // ---------------------------------------------------------------------------
  // Properties
  // ---------------------------------------------------------------------------

  /** A titled block is its lines joined by newlines; an empty list leaves one empty line. */
  lemma SectionJoin(title: string, xs: seq<string>)
    ensures Join(SectionLines(title, xs), "\n") == Section(title, xs)
  {
    var rest := if xs == [] then [""] else BulletItems(xs);
    JoinAppend([title], rest, "\n");
  }

  /** Appending one line to joined lines. */
  lemma JoinSnoc(xs: seq<string>, x: string, sep: string)
    requires |xs| > 0
    ensures Join(xs + [x], sep) == Join(xs, sep) + sep + x
  {
    JoinAppend(xs, [x], sep);
  }

  /** Eight lines joined by newlines, spelled out. */
  lemma JoinEight(l: seq<string>, sep: string)
    requires |l| == 8
    ensures Join(l, sep) == l[0] + sep + l[1] + sep + l[2] + sep + l[3] + sep
                            + l[4] + sep + l[5] + sep + l[6] + sep + l[7]
  {
    var p := [l[0]];
    JoinSnoc(p, l[1], sep);
    JoinSnoc(p + [l[1]], l[2], sep);
    JoinSnoc(p + [l[1]] + [l[2]], l[3], sep);
    JoinSnoc(p + [l[1]] + [l[2]] + [l[3]], l[4], sep);
    JoinSnoc(p + [l[1]] + [l[2]] + [l[3]] + [l[4]], l[5], sep);
    JoinSnoc(p + [l[1]] + [l[2]] + [l[3]] + [l[4]] + [l[5]], l[6], sep);
    JoinSnoc(p + [l[1]] + [l[2]] + [l[3]] + [l[4]] + [l[5]] + [l[6]], l[7], sep);
    assert l == p + [l[1]] + [l[2]] + [l[3]] + [l[4]] + [l[5]] + [l[6]] + [l[7]];
  }

  /** The top block is its lines joined by newlines. */
  lemma HeaderJoin(a: Object, timestamp: string)
    requires Conforms(a)
    ensures Join(HeaderLines(a, timestamp), "\n") == Header(a, timestamp)
  {
    HeaderText(timestamp, Stage(a), Severity(a), EmergencyLevel(a));
  }

  /** The top block's lines joined by newlines, for any field values. */
  lemma HeaderText(ts: string, st: string, sv: string, em: string)
    ensures Join([ "", "DENTAL ANALYSIS REPORT", "Generated: " + ts, "",
                   "Cavity Stage: " + st, "Severity: " + sv, "Emergency Level: " + em, "" ], "\n")
            == "\n" + "DENTAL ANALYSIS REPORT" + "\n" + "Generated: " + ts + "\n"
               + "\n" + "Cavity Stage: " + st + "\n"
               + "Severity: " + sv + "\n"
               + "Emergency Level: " + em + "\n"
  {
    var nl := "\n";
    var l := [ "", "DENTAL ANALYSIS REPORT", "Generated: " + ts, "",
               "Cavity Stage: " + st, "Severity: " + sv, "Emergency Level: " + em, "" ];
    EightLines("DENTAL ANALYSIS REPORT", "Generated: " + ts, "Cavity Stage: " + st,
               "Severity: " + sv, "Emergency Level: " + em, nl);
    HeaderRegroup("DENTAL ANALYSIS REPORT", "Generated: ", ts, "Cavity Stage: ", st,
                  "Severity: ", sv, "Emergency Level: ", em, nl);
  }

  /** Eight lines, three of them blank, joined by a separator. */
  lemma EightLines(d: string, g: string, c: string, s: string, e: string, nl: string)
    ensures Join(["", d, g, "", c, s, e, ""], nl)
            == "" + nl + d + nl + g + nl + "" + nl + c + nl + s + nl + e + nl + ""
  {
    JoinEight(["", d, g, "", c, s, e, ""], nl);
  }

  /** Dropping the empty lines and splitting the labelled lines into label and value. */
  lemma HeaderRegroup(d: string, g0: string, g1: string, c0: string, c1: string,
                      s0: string, s1: string, e0: string, e1: string, nl: string)
    ensures "" + nl + d + nl + (g0 + g1) + nl + "" + nl + (c0 + c1) + nl + (s0 + s1) + nl
            + (e0 + e1) + nl + ""
            == nl + d + nl + g0 + g1 + nl + nl + c0 + c1 + nl + s0 + s1 + nl + e0 + e1 + nl
  {
  }

  /** The closing lines joined by newlines. */
  lemma ClosingJoin(a: Object)
    requires Conforms(a)
    ensures Join(ClosingLines(a), "\n") == Closing(a)
  {
    var l := ClosingLines(a);
    JoinSnoc([l[0]], l[1], "\n");
    JoinSnoc([l[0]] + [l[1]], l[2], "\n");
    assert l == [l[0]] + [l[1]] + [l[2]];
  }

  /** Joining the five list blocks with blank lines between them, in terms of the
      blocks' own joins. */
  lemma JoinBlocks(s1: seq<string>, s2: seq<string>, s3: seq<string>, s4: seq<string>,
                   s5: seq<string>, nl: string)
    requires |s1| > 0 && |s2| > 0 && |s3| > 0 && |s4| > 0 && |s5| > 0
    ensures var e := [""];
            Join(s1 + e + s2 + e + s3 + e + s4 + e + s5, nl)
            == Join(s1, nl) + nl + "" + nl + Join(s2, nl) + nl + "" + nl
               + Join(s3, nl) + nl + "" + nl + Join(s4, nl) + nl + "" + nl + Join(s5, nl)
  {
    var e := [""];
    JoinAppend(s1, e, nl);
    JoinAppend(s1 + e, s2, nl);
    JoinAppend(s1 + e + s2, e, nl);
    JoinAppend(s1 + e + s2 + e, s3, nl);
    JoinAppend(s1 + e + s2 + e + s3, e, nl);
    JoinAppend(s1 + e + s2 + e + s3 + e, s4, nl);
    JoinAppend(s1 + e + s2 + e + s3 + e + s4, e, nl);
    JoinAppend(s1 + e + s2 + e + s3 + e + s4 + e, s5, nl);
  }

  /** Dropping the empty separator lines between the blocks. */
  lemma BlocksRegroup(s1: string, s2: string, s3: string, s4: string, s5: string, nl: string)
    ensures s1 + nl + "" + nl + s2 + nl + "" + nl + s3 + nl + "" + nl + s4 + nl + "" + nl + s5
            == s1 + nl + nl + s2 + nl + nl + s3 + nl + nl + s4 + nl + nl + s5
  {
  }

  /** The list blocks are their lines joined by newlines. */
  lemma SectionsJoin(a: Object)
    requires Conforms(a)
    ensures Join(SectionsLines(a), "\n") == Sections(a)
  {
    var x1 := GetList(a, "visible_issues");
    var x2 := GetList(a, "possible_causes");
    var x3 := GetList(a, "recommended_treatments");
    var x4 := GetList(a, "prevention_tips");
    var x5 := GetList(a, "home_care_instructions");
    SectionJoin("Visible Issues:", x1);
    SectionJoin("Possible Causes:", x2);
    SectionJoin("Recommended Treatments:", x3);
    SectionJoin("Prevention Tips:", x4);
    SectionJoin("Home Care Instructions:", x5);
    JoinBlocks(SectionLines("Visible Issues:", x1), SectionLines("Possible Causes:", x2),
               SectionLines("Recommended Treatments:", x3), SectionLines("Prevention Tips:", x4),
               SectionLines("Home Care Instructions:", x5), "\n");
    BlocksRegroup(Section("Visible Issues:", x1), Section("Possible Causes:", x2),
                  Section("Recommended Treatments:", x3), Section("Prevention Tips:", x4),
                  Section("Home Care Instructions:", x5), "\n");
  }

  /** The report is its lines joined by newlines. */
  lemma RenderIsLines(a: Object, timestamp: string)
    requires Conforms(a)
    ensures Render(a, timestamp) == Join(Lines(a, timestamp), "\n")
  {
    var h := HeaderLines(a, timestamp);
    var m := SectionsLines(a);
    var t := ClosingLines(a);
    HeaderJoin(a, timestamp);
    SectionsJoin(a);
    ClosingJoin(a);
    JoinAppend(h, m, "\n");
    JoinAppend(h + m, t, "\n");
    MiddleRegroup(Header(a, timestamp), Sections(a), Closing(a), "\n");
  }

  /** The line breaks around the list blocks belong to the middle of the report. */
  lemma MiddleRegroup(x: string, y: string, z: string, nl: string)
    ensures x + nl + y + nl + z == x + (nl + y + nl) + z
  {
  }

  /** No line of `xs` holds a line break. */
  ghost predicate AllOneLine(xs: seq<string>) {
    forall k :: 0 <= k < |xs| ==> OneLine(xs[k])
  }

  lemma AllOneLineAppend(xs: seq<string>, ys: seq<string>)
    requires AllOneLine(xs) && AllOneLine(ys)
    ensures AllOneLine(xs + ys)
  {
    forall k | 0 <= k < |xs + ys|
      ensures OneLine((xs + ys)[k])
    {
      if k >= |xs| {
        assert (xs + ys)[k] == ys[k - |xs|];
      }
    }
  }

  /** A label followed by a one-line value is one line. */
  lemma LabelledOneLine(lead: string, value: string)
    requires OneLine(lead) && OneLine(value)
    ensures OneLine(lead + value)
  {
  }

  /** A block of one-line entries, titled with a one-line title, is all single lines. */
  lemma SectionOneLine(title: string, xs: seq<string>)
    requires OneLine(title) && AllOneLine(xs)
    ensures AllOneLine(SectionLines(title, xs))
  {
    assert OneLine(Bullet);
    forall k | 0 <= k < |xs|
      ensures OneLine(BulletItems(xs)[k])
    {
      LabelledOneLine(Bullet, xs[k]);
    }
    AllOneLineAppend([title], if xs == [] then [""] else BulletItems(xs));
  }

  /** The top block's lines are single lines when the values in it are. */
  lemma HeaderOneLine(a: Object, timestamp: string)
    requires Conforms(a) && SingleLineValues(a, timestamp)
    ensures AllOneLine(HeaderLines(a, timestamp))
  {
    assert OneLine("DENTAL ANALYSIS REPORT") && OneLine("Generated: ") && OneLine("Cavity Stage: ")
           && OneLine("Severity: ") && OneLine("Emergency Level: ");
    LabelledOneLine("Generated: ", timestamp);
    LabelledOneLine("Cavity Stage: ", Stage(a));
    LabelledOneLine("Severity: ", Severity(a));
    LabelledOneLine("Emergency Level: ", EmergencyLevel(a));
  }

  /** The closing lines are single lines when the timeline is. */
  lemma ClosingOneLine(a: Object)
    requires Conforms(a) && OneLine(Timeline(a))
    ensures AllOneLine(ClosingLines(a))
  {
    assert OneLine("When to See Dentist: ") && OneLine(Indent);
    LabelledOneLine("When to See Dentist: ", Timeline(a));
  }

  /** Single-line blocks laid out with blank lines between them stay single lines. */
  lemma BlocksOneLine(s1: seq<string>, s2: seq<string>, s3: seq<string>, s4: seq<string>,
                      s5: seq<string>)
    requires AllOneLine(s1) && AllOneLine(s2) && AllOneLine(s3) && AllOneLine(s4) && AllOneLine(s5)
    ensures var e := [""]; AllOneLine(s1 + e + s2 + e + s3 + e + s4 + e + s5)
  {
    var e := [""];
    assert AllOneLine(e);
    AllOneLineAppend(s1, e);
    AllOneLineAppend(s1 + e, s2);
    AllOneLineAppend(s1 + e + s2, e);
    AllOneLineAppend(s1 + e + s2 + e, s3);
    AllOneLineAppend(s1 + e + s2 + e + s3, e);
    AllOneLineAppend(s1 + e + s2 + e + s3 + e, s4);
    AllOneLineAppend(s1 + e + s2 + e + s3 + e + s4, e);
    AllOneLineAppend(s1 + e + s2 + e + s3 + e + s4 + e, s5);
  }

  /** The list blocks are single lines when every entry is. */
  lemma SectionsOneLine(a: Object, timestamp: string)
    requires Conforms(a) && SingleLineValues(a, timestamp)
    ensures AllOneLine(SectionsLines(a))
  {
    var x1 := GetList(a, "visible_issues");
    var x2 := GetList(a, "possible_causes");
    var x3 := GetList(a, "recommended_treatments");
    var x4 := GetList(a, "prevention_tips");
    var x5 := GetList(a, "home_care_instructions");
    assert OneLine("Visible Issues:") && OneLine("Possible Causes:") && OneLine("Recommended Treatments:")
           && OneLine("Prevention Tips:") && OneLine("Home Care Instructions:");
    SectionOneLine("Visible Issues:", x1);
    SectionOneLine("Possible Causes:", x2);
    SectionOneLine("Recommended Treatments:", x3);
    SectionOneLine("Prevention Tips:", x4);
    SectionOneLine("Home Care Instructions:", x5);
    BlocksOneLine(SectionLines("Visible Issues:", x1), SectionLines("Possible Causes:", x2),
                  SectionLines("Recommended Treatments:", x3), SectionLines("Prevention Tips:", x4),
                  SectionLines("Home Care Instructions:", x5));
  }

  /** With one-line field values, every line of the report is a single line. */
  lemma LinesOneLine(a: Object, timestamp: string)
    requires Conforms(a) && SingleLineValues(a, timestamp)
    ensures AllOneLine(Lines(a, timestamp))
  {
    HeaderOneLine(a, timestamp);
    SectionsOneLine(a, timestamp);
    ClosingOneLine(a);
    AllOneLineAppend(HeaderLines(a, timestamp), SectionsLines(a));
    AllOneLineAppend(HeaderLines(a, timestamp) + SectionsLines(a), ClosingLines(a));
  }

  /** When no value contains a line break, splitting the report at line breaks gives
      back exactly its lines: the template's layout is recoverable from the text. */
  lemma ReportLinesRoundTrip(a: Object, timestamp: string)
    requires Conforms(a) && SingleLineValues(a, timestamp)
    ensures SplitOn(Render(a, timestamp), '\n') == Lines(a, timestamp)
  {
    RenderIsLines(a, timestamp);
    LinesOneLine(a, timestamp);
    assert "\n" == ['\n'];
    SplitJoin(Lines(a, timestamp), '\n');
  }

  /** The list fields the report prints, each under its own title. */
  predicate IsListKey(key: string) {
    key == "visible_issues" || key == "possible_causes" || key == "recommended_treatments"
    || key == "prevention_tips" || key == "home_care_instructions"
  }

  /** Every entry of every printed list is a line of the report of its own, behind the bullet. */
  lemma EntryIsBulletLine(a: Object, timestamp: string, key: string, i: nat)
    requires Conforms(a) && SingleLineValues(a, timestamp) && IsListKey(key)
    requires i < |GetList(a, key)|
    ensures Bullet + GetList(a, key)[i] in SplitOn(Render(a, timestamp), '\n')
  {
    ReportLinesRoundTrip(a, timestamp);
    EntryInSections(a, key, i);
  }

  /** For any values, line breaks in them or not, every entry of every printed list occurs
      in the report behind the bullet. */
  lemma EntryInReport(a: Object, timestamp: string, key: string, i: nat)
    requires Conforms(a) && IsListKey(key)
    requires i < |GetList(a, key)|
    ensures Contains(Render(a, timestamp), Bullet + GetList(a, key)[i])
  {
    RenderIsLines(a, timestamp);
    EntryInSections(a, key, i);
    MiddleLineJoined(HeaderLines(a, timestamp), SectionsLines(a), ClosingLines(a),
                     Bullet + GetList(a, key)[i], "\n");
  }

  /** A line of the middle run of lines occurs in their join. */
  lemma MiddleLineJoined(h: seq<string>, m: seq<string>, t: seq<string>, x: string, sep: string)
    requires x in m
    ensures Contains(Join(h + m + t, sep), x)
  {
    var ls := h + m + t;
    var j :| 0 <= j < |m| && m[j] == x;
    assert ls[|h| + j] == x;
    JoinEntry(ls, sep, |h| + j);
  }

  /** Every entry of every printed list is, behind the bullet, a line of the list blocks. */
  lemma EntryInSections(a: Object, key: string, i: nat)
    requires Conforms(a) && IsListKey(key)
    requires i < |GetList(a, key)|
    ensures Bullet + GetList(a, key)[i] in SectionsLines(a)
  {
    var x := Bullet + GetList(a, key)[i];
    var s1 := SectionLines("Visible Issues:", GetList(a, "visible_issues"));
    var s2 := SectionLines("Possible Causes:", GetList(a, "possible_causes"));
    var s3 := SectionLines("Recommended Treatments:", GetList(a, "recommended_treatments"));
    var s4 := SectionLines("Prevention Tips:", GetList(a, "prevention_tips"));
    var s5 := SectionLines("Home Care Instructions:", GetList(a, "home_care_instructions"));
    if key == "visible_issues" {
      assert s1[1 + i] == x;
    } else if key == "possible_causes" {
      assert s2[1 + i] == x;
    } else if key == "recommended_treatments" {
      assert s3[1 + i] == x;
    } else if key == "prevention_tips" {
      assert s4[1 + i] == x;
    } else {
      assert s5[1 + i] == x;
    }
  }

  /** The summary fields and the visit advice each stand on a line of their own. */
  lemma FieldsOnTheirOwnLines(a: Object, timestamp: string)
    requires Conforms(a) && SingleLineValues(a, timestamp)
    ensures var ls := SplitOn(Render(a, timestamp), '\n');
            && |ls| > 8
            && ls[1] == "DENTAL ANALYSIS REPORT"
            && ls[2] == "Generated: " + timestamp
            && ls[4] == "Cavity Stage: " + Stage(a)
            && ls[5] == "Severity: " + Severity(a)
            && ls[6] == "Emergency Level: " + EmergencyLevel(a)
            && ls[|ls| - 2] == "When to See Dentist: " + Timeline(a)
  {
    ReportLinesRoundTrip(a, timestamp);
    var h := HeaderLines(a, timestamp);
    var t := ClosingLines(a);
    var ls := Lines(a, timestamp);
    assert |ls| == |h| + |SectionsLines(a)| + |t|;
    assert ls[1] == h[1] && ls[2] == h[2] && ls[4] == h[4] && ls[5] == h[5] && ls[6] == h[6];
    assert ls[|ls| - 2] == t[1];
  }
}
