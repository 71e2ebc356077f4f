/** The decisions `display_analysis_results` makes before rendering: the error
    banner for an error record, the one-character CSS class suffix derived from
    the free-text cavity stage, and whether the emergency alert is shown. */
module Display {
  import opened Wrappers
  import opened Json
  import opened Text

  /** The emergency levels that raise the alert; the comparison is case-sensitive. */
  predicate IsEmergency(level: string)
    ensures IsEmergency(level) <==> level in ["High", "Critical"]
  {
    level == "High" || level == "Critical"
  }

  /** The suffix of the `stage-N` CSS class: "0" unless the stage text contains
      "Stage" and has at least two whitespace-separated tokens, in which case it is
      the first character of the second token, digit or not. */
  function StageClass(stage: string): (r: string)
    ensures |r| == 1
    ensures r != "0" ==> Contains(stage, "Stage") && r[0] in stage && !IsSpace(r[0])
  {
    if Contains(stage, "Stage") then
      var ts := Tokens(stage);
      if |ts| > 1 then
        assert ts[1][0] in stage by { TokenChars(stage, 1, 0); }
        [ts[1][0]]
      else "0"
    else "0"
  }

  /** Every character of a token is a character of the text. */
  lemma {:induction false} TokenChars(s: string, t: nat, k: nat)
    requires t < |Tokens(s)| && k < |Tokens(s)[t]|
    ensures Tokens(s)[t][k] in s
    decreases |s|
  {
    if IsSpace(s[0]) {
      TokenChars(s[1..], t, k);
      assert Tokens(s[1..])[t][k] in s[1..];
    } else {
      var n := WordLength(s);
      if t == 0 {
        assert Tokens(s)[0] == s[..n];
        assert s[..n][k] == s[k];
      } else {
        assert Tokens(s)[t] == Tokens(s[n..])[t - 1];
        TokenChars(s[n..], t - 1, k);
        assert Tokens(s[n..])[t - 1][k] in s[n..];
      }
    }
  }

  /** Where the second token starts: after leading whitespace `[0, i)`, a first word
      `[i, j)` and whitespace `[j, k)`, the tokens run out at `k == |s|` and otherwise
      the second token begins with `s[k]`. */
  lemma SecondTokenAt(s: string, i: nat, j: nat, k: nat)
    requires i < j <= k <= |s|
    requires forall m :: 0 <= m < i ==> IsSpace(s[m])
    requires IsWord(s[i..j]) && (j == |s| || IsSpace(s[j]))
    requires forall m :: j <= m < k ==> IsSpace(s[m])
    requires k == |s| || !IsSpace(s[k])
    ensures |Tokens(s)| >= 1
    ensures k == |s| <==> |Tokens(s)| == 1
    ensures k < |s| ==> Tokens(s)[1][0] == s[k]
  {
    FirstTokenAt(s, i, j);
    TokensSkipSpace(s, j, k);
    if k < |s| {
      TokenStart(s[k..]);
    }
  }

  /** After leading whitespace `[0, i)`, the word `[i, j)` is the first token. */
  lemma FirstTokenAt(s: string, i: nat, j: nat)
    requires i < j <= |s|
    requires forall m :: 0 <= m < i ==> IsSpace(s[m])
    requires IsWord(s[i..j]) && (j == |s| || IsSpace(s[j]))
    ensures Tokens(s) == [s[i..j]] + Tokens(s[j..])
  {
    TokensSkipSpace(s, 0, i);
    assert s[0..] == s;
    TokensWord(s, i, j);
  }

  /** A text that starts with a non-space character has a first token starting with it. */
  lemma TokenStart(t: string)
    requires |t| > 0 && !IsSpace(t[0])
    ensures |Tokens(t)| > 0 && Tokens(t)[0][0] == t[0]
  {
  }

  /** The stage class computed in one left-to-right scan: skip whitespace, skip the
      first word, skip whitespace, and take the character found there. It agrees
      with the token-based definition on every input. */
  method ScanStageClass(stage: string) returns (r: string)
    ensures r == StageClass(stage)
  {
    if !Contains(stage, "Stage") {
      return "0";
    }
    var i := 0;
    while i < |stage| && IsSpace(stage[i])
      invariant i <= |stage|
      invariant forall m :: 0 <= m < i ==> IsSpace(stage[m])
    {
      i := i + 1;
    }
    if i == |stage| {
      TokensSkipSpace(stage, 0, i);
      assert stage[0..] == stage;
      return "0";
    }
    var j := i + 1;
    while j < |stage| && !IsSpace(stage[j])
      invariant i < j <= |stage|
      invariant IsWord(stage[i..j])
    {
      assert stage[i..j + 1] == stage[i..j] + [stage[j]];
      j := j + 1;
    }
    var k := j;
    while k < |stage| && IsSpace(stage[k])
      invariant j <= k <= |stage|
      invariant forall m :: j <= m < k ==> IsSpace(stage[m])
    {
      k := k + 1;
    }
    SecondTokenAt(stage, i, j, k);
    if k == |stage| {
      return "0";
    }
    r := [stage[k]];
  }

  /** What the results area shows for an analysis dictionary. */
  datatype Panel =
    | ErrorPanel(message: Value, raw: Option<Value>)
    | ResultPanel(stage: string, severity: string, stageClass: string, alert: Option<string>)

  /** `display_analysis_results`: an error record gives the error banner (with the raw
      reply when the record has one) and nothing else; otherwise the stage banner,
      with the alert exactly for the emergency levels. */
  function ShowResults(a: Object): (p: Panel)
    requires "error" !in a ==> Conforms(a)
    ensures p.ErrorPanel? <==> "error" in a
    ensures p.ErrorPanel? ==> p.message == a["error"] && (p.raw.Some? <==> "raw_response" in a)
    ensures p.ResultPanel? ==>
              && p.stage == Stage(a) && p.severity == Severity(a)
              && (p.alert.Some? <==> IsEmergency(EmergencyLevel(a)))
              && (p.alert.Some? ==> p.alert.value == a["emergency_level"].s)
              && (p.stageClass != "0" ==> "cavity_stage" in a)
              && p.stageClass == StageClass(p.stage)
    ensures p.ErrorPanel? && "raw_response" in a ==> p.raw == Some(a["raw_response"])
  {
    if "error" in a then
      ErrorPanel(a["error"], if "raw_response" in a then Some(a["raw_response"]) else None)
    else
      var stage := Stage(a);
      var emergency := EmergencyLevel(a);
      UnknownHasNoStage();
      ResultPanel(stage, Severity(a), StageClass(stage),
                  if IsEmergency(emergency) then Some(emergency) else None)
  }

  /** The test is exact and case-sensitive: other spellings and the default "None" raise no alert. */
  lemma EmergencyCaseSensitive()
    ensures IsEmergency("High") && IsEmergency("Critical")
    ensures !IsEmergency("high") && !IsEmergency("HIGH") && !IsEmergency("critical")
    ensures !IsEmergency("None") && !IsEmergency("Medium")
  {
  }

  /** The default stage text carries no "Stage", so it gives class "0". */
  lemma UnknownHasNoStage()
    ensures !Contains("Unknown", "Stage")
  {
    var u := "Unknown";
    forall i
      ensures !OccursAt(u, "Stage", i)
    {
      if 0 <= i && i + 5 <= |u| {
        assert u[i..i + 5][0] == u[i] != 'S';
      }
    }
  }

  /** The example the stage rule is known for: "Early Stage 2" gives class "S". */
  lemma EarlyStageGivesS()
    ensures StageClass("Early Stage 2") == "S"
  {
    var s := "Early Stage 2";
    assert s[6..11] == "Stage";
    assert OccursAt(s, "Stage", 6);
    assert s[0..5] == "Early";
    SecondTokenAt(s, 0, 5, 6);
  }

  /** The form the prompt asks for: "Stage 3" gives class "3". */
  lemma StageThreeGivesThree()
    ensures StageClass("Stage 3") == "3"
  {
    var s := "Stage 3";
    assert s[0..5] == "Stage";
    assert OccursAt(s, "Stage", 0);
    SecondTokenAt(s, 0, 5, 6);
  }
}
