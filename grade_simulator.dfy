/** The front end's what-if grade simulator: the page state (selected subject
    and simulated scores), the predicted grade it shows, its compliance status,
    the threshold checklist and the insight line. JavaScript's division is kept:
    0/0 is NaN and x/0 is an infinity, which is what the page computes for a
    subject without weight. */
module GradeSimulator {
  import opened Models
  import opened Grading
  import Mock

  /** A JavaScript number as this page can produce it. */
  datatype JsNumber = Finite(value: real) | NaN | Infinity(negative: bool)

  /** JavaScript division of two finite numbers. */
  function Divide(x: real, y: real): (q: JsNumber)
    ensures q.Finite? <==> y != 0.0
    ensures q.Finite? ==> q.value * y == x
    ensures q == NaN <==> x == 0.0 && y == 0.0
    ensures q.Infinity? ==> (q.negative <==> x < 0.0)
  {
    if y != 0.0 then Finite(x / y)
    else if x == 0.0 then NaN
    else Infinity(x < 0.0)
  }

  function Times100(n: JsNumber): JsNumber {
    match n
    case Finite(v) => Finite(v * 100.0)
    case _ => n
  }

  /** JavaScript's `n >= t`: false for NaN, decided by the sign for an infinity. */
  predicate AtLeast(n: JsNumber, t: real) {
    match n
    case Finite(v) => v >= t
    case NaN => false
    case Infinity(negative) => !negative
  }

  /** The page's prediction: the weighted score over the total weight, times
      100, with no guard against a zero total weight. */
  function PredictedGrade(comps: seq<Component>, sims: map<string, real>): (g: JsNumber)
    requires WellFormed(comps)
    ensures g.Finite? <==> TotalWeight(comps) != 0.0
    ensures g == NaN <==> WeightedScore(comps, sims) == 0.0 && TotalWeight(comps) == 0.0
    ensures g.Finite? ==> g.value * TotalWeight(comps) == WeightedScore(comps, sims) * 100.0
  {
    Times100(Divide(WeightedScore(comps, sims), TotalWeight(comps)))
  }

  /** The `forEach` loop that accumulates the two sums, then the division. */
  method SimulateGrade(comps: seq<Component>, sims: map<string, real>) returns (grade: JsNumber)
    requires WellFormed(comps)
    ensures grade == PredictedGrade(comps, sims)
  {
    var totalWeightedScore := 0.0;
    var totalWeight := 0.0;
    for i := 0 to |comps|
      invariant WellFormed(comps[..i])
      invariant totalWeightedScore == WeightedScore(comps[..i], sims)
      invariant totalWeight == TotalWeight(comps[..i])
    {
      var comp := comps[i];
      var score := if comp.name in sims then sims[comp.name] else comp.scored;
      totalWeightedScore := totalWeightedScore + score / comp.total * comp.weight;
      totalWeight := totalWeight + comp.weight;
      assert comps[..i + 1][..i] == comps[..i];
    }
    assert comps[..|comps|] == comps;
    grade := Times100(Divide(totalWeightedScore, totalWeight));
  }

  /** A subject with positive weight and scores in range gets a finite
      prediction between 0 and 100. */
  lemma PredictionInRange(comps: seq<Component>, sims: map<string, real>)
    requires WellFormed(comps) && NonNegativeWeights(comps) && ScoresInRange(comps, sims)
    requires TotalWeight(comps) > 0.0
    ensures PredictedGrade(comps, sims).Finite?
    ensures 0.0 <= PredictedGrade(comps, sims).value <= 100.0
  {
    PercentageBounds(comps, sims);
  }

  /** A subject whose weights are all zero (or that has no components) is
      predicted as NaN. */
  lemma NoWeightIsNaN(comps: seq<Component>, sims: map<string, real>)
    requires WellFormed(comps)
    requires forall i :: 0 <= i < |comps| ==> comps[i].weight == 0.0
    ensures PredictedGrade(comps, sims) == NaN
  {
    ZeroWeightsScoreNothing(comps, sims);
  }

  /** The status shown beside the prediction: first match of >= 90, >= 85, >= 75. */
  function GetComplianceStatus(grade: JsNumber): (s: Status)
    ensures grade.Finite? ==> s == Tier(grade.value)
    ensures grade == NaN ==> s == Critical
    ensures grade.Infinity? ==> s == (if grade.negative then Critical else Excellent)
  {
    if AtLeast(grade, 90.0) then Excellent
    else if AtLeast(grade, 85.0) then OnTrack
    else if AtLeast(grade, 75.0) then AtRisk
    else Critical
  }

  /** The `reached` flags of the three-line threshold checklist. */
  datatype Checklist = Checklist(excellent: bool, onTrack: bool, minimum: bool)

  function ThresholdChecklist(grade: JsNumber): (c: Checklist)
    ensures c.excellent ==> c.onTrack
    ensures c.onTrack ==> c.minimum
    ensures c.excellent <==> GetComplianceStatus(grade) == Excellent
    ensures c.onTrack <==> GetComplianceStatus(grade) in {Excellent, OnTrack}
    ensures c.minimum <==> GetComplianceStatus(grade) != Critical
  {
    Checklist(AtLeast(grade, 90.0), AtLeast(grade, 85.0), AtLeast(grade, 75.0))
  }

  /** The three insight lines of the "Tactical Insight" card. */
  datatype Insight = KeepTrajectory | PushToNinety | FocusOnPending

  /** The insight shown for a prediction: only two thresholds are compared, so an
      "At Risk" grade gets the same line as a "Critical" one. */
  function InsightFor(grade: JsNumber): (i: Insight)
    ensures i == KeepTrajectory <==> GetComplianceStatus(grade) == Excellent
    ensures i == PushToNinety <==> GetComplianceStatus(grade) == OnTrack
    ensures i == FocusOnPending <==> GetComplianceStatus(grade) in {AtRisk, Critical}
  {
    if AtLeast(grade, 90.0) then KeepTrajectory
    else if AtLeast(grade, 85.0) then PushToNinety
    else FocusOnPending
  }

  // ---------------------------------------------------------------------------
  // parseInt, as the score input field uses it (no radix argument)
  // ---------------------------------------------------------------------------

  /** The white space and line terminators that parseInt skips before the number. */
  predicate IsSpace(c: char) {
    c == ' ' || c == '\t' || c == '\n' || c == '\r' || c == '\U{B}' || c == '\U{C}'
    || c == '\U{A0}' || c == '\U{FEFF}' || c == '\U{2028}' || c == '\U{2029}'
  }

  function TrimStart(s: string): (t: string)
    ensures |t| <= |s| && t == s[|s| - |t|..]
    ensures t == [] || !IsSpace(t[0])
    ensures forall i :: 0 <= i < |s| - |t| ==> IsSpace(s[i])
  {
    if s != [] && IsSpace(s[0]) then TrimStart(s[1..]) else s
  }

  /** The value of one digit in the given radix, if it is one. */
  function DigitValue(c: char, radix: nat): (d: Option<nat>)
    ensures d.Some? ==> d.value < radix
  {
    var v :=
      if '0' <= c <= '9' then (c as int) - ('0' as int)
      else if 'a' <= c <= 'z' then (c as int) - ('a' as int) + 10
      else if 'A' <= c <= 'Z' then (c as int) - ('A' as int) + 10
      else radix;
    if v < radix then Some(v) else None
  }

  predicate AllDigits(s: string, radix: nat) {
    forall i :: 0 <= i < |s| ==> DigitValue(s[i], radix).Some?
  }

  /** The length of the longest prefix of digits. */
  function LeadingDigits(s: string, radix: nat): (n: nat)
    ensures n <= |s| && AllDigits(s[..n], radix)
    ensures n < |s| ==> DigitValue(s[n], radix) == None
  {
    if s != [] && DigitValue(s[0], radix).Some? then
      var rest := LeadingDigits(s[1..], radix);
      assert s[..rest + 1] == [s[0]] + s[1..][..rest];
      rest + 1
    else 0
  }

  /** The number that a string of digits denotes, most significant first. */
  function DigitsValue(s: string, radix: nat): nat
    requires AllDigits(s, radix)
  {
    if s == [] then 0
    else
      assert AllDigits(s[..|s| - 1], radix) by {
        forall i | 0 <= i < |s| - 1 ensures s[..|s| - 1][i] == s[i] { }
      }
      DigitsValue(s[..|s| - 1], radix) * radix + DigitValue(s[|s| - 1], radix).value
  }

  /** Reads an optional sign: whether it was a minus, and what follows it. */
  function StripSign(t: string): (bool, string) {
    if |t| > 0 && (t[0] == '-' || t[0] == '+') then (t[0] == '-', t[1..]) else (false, t)
  }

  /** Reads an optional "0x"/"0X" prefix: the radix it selects, and what follows it. */
  function StripHexPrefix(u: string): (nat, string) {
    if |u| >= 2 && u[0] == '0' && (u[1] == 'x' || u[1] == 'X') then (16, u[2..]) else (10, u)
  }

  /** The value of the longest run of digits at the start, None when there is none. */
  function ParseDigits(body: string, radix: nat): Option<nat> {
    var n := LeadingDigits(body, radix);
    if n == 0 then None else Some(DigitsValue(body[..n], radix))
  }

  /** parseInt(s): skip leading white space, read an optional sign and an
      optional "0x"/"0X" prefix (radix 16), then the longest run of digits;
      None stands for NaN, when there is no digit at all. */
  function ParseInt(s: string): (r: Option<int>)
    ensures var (negative, unsigned) := StripSign(TrimStart(s));
      var (radix, body) := StripHexPrefix(unsigned);
      (r.None? <==> body == [] || DigitValue(body[0], radix).None?)
      && (r.Some? && r.value < 0 ==> negative)
  {
    var (negative, unsigned) := StripSign(TrimStart(s));
    var (radix, body) := StripHexPrefix(unsigned);
    match ParseDigits(body, radix)
    case None => None
    case Some(m) => Some(if negative then -(m as int) else m)
  }

  /** `parseInt(text) || 0`: the score stored for what was typed; NaN becomes 0. */
  function InputScore(text: string): (score: real)
    ensures ParseInt(text) == None ==> score == 0.0
    ensures ParseInt(text).Some? ==> score == ParseInt(text).value as real
  {
    match ParseInt(text)
    case Some(n) => n as real
    case None => 0.0
  }

  /** The decimal digit for d < 10. */
  function Digit(d: nat): char
    requires d < 10
  {
    ((('0' as int) + d) as char)
  }

  /** The decimal text of a natural number, as a number input field holds it. */
  function DecimalText(n: nat): (t: string)
    ensures |t| >= 1
  {
    if n < 10 then [Digit(n)] else DecimalText(n / 10) + [Digit(n % 10)]
  }

  lemma {:induction false} DecimalTextIsDigits(n: nat)
    ensures forall i :: 0 <= i < |DecimalText(n)| ==> '0' <= DecimalText(n)[i] <= '9'
  {
    if n >= 10 {
      DecimalTextIsDigits(n / 10);
    }
  }

  lemma {:induction false} DecimalTextValue(n: nat)
    ensures AllDigits(DecimalText(n), 10)
    ensures DigitsValue(DecimalText(n), 10) == n
  {
    DecimalTextIsDigits(n);
    var t := DecimalText(n);
    if n >= 10 {
      DecimalTextValue(n / 10);
      assert t[..|t| - 1] == DecimalText(n / 10);
    }
  }

  /** A string of decimal digits is read whole by parseInt. */
  lemma ParseDecimalDigits(t: string)
    requires |t| >= 1 && forall i :: 0 <= i < |t| ==> '0' <= t[i] <= '9'
    ensures AllDigits(t, 10)
    ensures ParseInt(t) == Some(DigitsValue(t, 10))
  {
    assert !IsSpace(t[0]);
    assert TrimStart(t) == t;
    assert StripSign(t) == (false, t);
    assert |t| >= 2 ==> t[1] != 'x' && t[1] != 'X';
    assert StripHexPrefix(t) == (10, t);
    assert t[..LeadingDigits(t, 10)] == t;
  }

  /** Typing the decimal text of a whole number stores that number. */
  lemma TypedNumberIsStored(n: nat)
    ensures InputScore(DecimalText(n)) == n as real
  {
    DecimalTextIsDigits(n);
    DecimalTextValue(n);
    ParseDecimalDigits(DecimalText(n));
  }

  /** parseInt read through its stages: the trimmed text, the sign, the radix
      prefix and the run of digits give the parsed value. */
  lemma ParseIntStages(s: string, trimmed: string, negative: bool, unsigned: string,
                       radix: nat, body: string, digits: Option<nat>)
    requires TrimStart(s) == trimmed && StripSign(trimmed) == (negative, unsigned)
    requires StripHexPrefix(unsigned) == (radix, body) && ParseDigits(body, radix) == digits
    ensures digits.None? ==> InputScore(s) == 0.0
    ensures digits.Some? ==> InputScore(s) == (if negative then -(digits.value as int) else digits.value) as real
  {
  }

  /** An empty field is stored as 0. */
  lemma EmptyInputStoredAsZero()
    ensures InputScore("") == 0.0
  {
    assert TrimStart("") == "";
    assert StripSign("") == (false, "");
    assert StripHexPrefix("") == (10, "");
    assert LeadingDigits("", 10) == 0;
    ParseIntStages("", "", false, "", 10, "", None);
  }

  /** Text that starts with no digit is stored as 0. */
  lemma LettersStoredAsZero()
    ensures InputScore("abc") == 0.0
  {
    var t := "abc";
    assert !IsSpace(t[0]);
    assert TrimStart(t) == t;
    assert StripSign(t) == (false, t);
    assert StripHexPrefix(t) == (10, t);
    assert DigitValue(t[0], 10) == None;
    assert LeadingDigits(t, 10) == 0;
    ParseIntStages(t, t, false, t, 10, t, None);
  }

  /** "0x" is kept whole by the trim and by the sign, and is all prefix. */
  lemma BareHexPrefixStages()
    ensures TrimStart("0x") == "0x" && StripSign("0x") == (false, "0x")
    ensures StripHexPrefix("0x") == (16, "")
  {
    var t := "0x";
    assert !IsSpace(t[0]) && t[0] != '-' && t[0] != '+';
    assert t[0] == '0' && t[1] == 'x' && t[2..] == [];
  }

  /** A hexadecimal prefix with no digit after it is stored as 0. */
  lemma BareHexPrefixStoredAsZero()
    ensures InputScore("0x") == 0.0
  {
    BareHexPrefixStages();
    assert LeadingDigits("", 16) == 0;
    ParseIntStages("0x", "0x", false, "0x", 16, "", None);
  }

  /** " 7 marks" loses its leading blank and nothing more. */
  lemma TrimBlankBeforeSeven()
    ensures TrimStart(" 7 marks") == "7 marks"
  {
    var t := " 7 marks";
    var u := t[1..];
    assert u == "7 marks" && !IsSpace(u[0]);
    assert TrimStart(u) == u;
  }

  /** "7 marks" starts with the one digit 7. */
  lemma SevenThenText()
    ensures ParseDigits("7 marks", 10) == Some(7)
  {
    var u := "7 marks";
    assert DigitValue(u[1], 10) == None;
    assert LeadingDigits(u[1..], 10) == 0;
    assert LeadingDigits(u, 10) == 1;
    assert u[..1] == "7";
    assert DigitsValue("7", 10) == 7 by {
      assert "7"[..0] == [];
    }
  }

  /** Leading white space is skipped and trailing text ignored. */
  lemma TrailingTextIgnored()
    ensures InputScore(" 7 marks") == 7.0
  {
    var u := "7 marks";
    TrimBlankBeforeSeven();
    SevenThenText();
    assert StripSign(u) == (false, u);
    assert StripHexPrefix(u) == (10, u);
    ParseIntStages(" 7 marks", u, false, u, 10, u, Some(7));
  }

  /** A minus sign negates the stored score. */
  lemma SignedInput()
    ensures InputScore("-4") == -4.0
  {
    var t := "-4";
    assert TrimStart(t) == t;
    assert StripSign(t) == (true, "4");
    assert StripHexPrefix("4") == (10, "4");
    assert LeadingDigits("4", 10) == 1;
    assert "4"[..1] == "4";
    assert DigitsValue("4", 10) == 4 by {
      assert "4"[..0] == [];
    }
    ParseIntStages(t, t, true, "4", 10, "4", Some(4));
  }

  /** A "0x" prefix switches to hexadecimal. */
  lemma HexInput()
    ensures InputScore("0x1A") == 26.0
  {
    var t := "0x1A";
    assert TrimStart(t) == t;
    assert StripSign(t) == (false, t);
    assert StripHexPrefix(t) == (16, "1A");
    assert LeadingDigits("1A", 16) == 2;
    assert "1A"[..2] == "1A";
    assert DigitsValue("1A", 16) == 26 by {
      assert "1A"[..1] == "1";
      assert "1"[..0] == [];
    }
    ParseIntStages(t, t, false, t, 16, "1A", Some(26));
  }

  // ---------------------------------------------------------------------------
  // The page state
  // ---------------------------------------------------------------------------

  /** The simulator page: the selected subject and the map of simulated scores,
      both replaced wholesale by their setters. */
  class Session {
    var subject: Subject
    var simulations: map<string, real>

    /** The page opens on the first subject with no simulations. */
    constructor (first: Subject)
      ensures subject == first && simulations == map[]
    {
      subject := first;
      simulations := map[];
    }

    /** The prediction the page shows for the current state. */
    function Prediction(): JsNumber
      reads this
      requires WellFormed(subject.components)
    {
      PredictedGrade(subject.components, simulations)
    }

    /** Choosing a subject discards every simulation, so the prediction is the
        subject's own, without overrides. */
    method SelectSubject(s: Subject)
      modifies this
      ensures subject == s && simulations == map[]
      ensures WellFormed(s.components) ==> Prediction() == PredictedGrade(s.components, map[])
    {
      subject := s;
      simulations := map[];
    }

    /** Moving a component's slider stores the new value under its name only. */
    method SlideScore(name: string, value: real)
      modifies this`simulations
      ensures simulations == old(simulations)[name := value]
      ensures name in simulations && simulations[name] == value
      ensures forall k :: k != name ==> (k in simulations <==> k in old(simulations))
      ensures forall k :: k != name && k in simulations ==> simulations[k] == old(simulations)[k]
    {
      simulations := simulations[name := value];
    }

    /** Typing into a component's number field stores `parseInt(text) || 0`. */
    method EnterScore(name: string, text: string)
      modifies this`simulations
      ensures simulations == old(simulations)[name := InputScore(text)]
      ensures ParseInt(text) == None ==> simulations[name] == 0.0
      ensures forall k :: k != name ==> (k in simulations <==> k in old(simulations))
      ensures forall k :: k != name && k in simulations ==> simulations[k] == old(simulations)[k]
    {
      simulations := simulations[name := InputScore(text)];
    }
  }

  /** "Data Structures" with no simulation is predicted at 1541/30 ≈ 51.37,
      Critical; simulating Quiz 2 = 18 and Final Exam = 70 lifts it to
      2471/30 ≈ 82.37, At Risk. */
  lemma DataStructuresExample()
    ensures PredictedGrade(Mock.DataStructures, map[]) == Finite(1541.0 / 30.0)
    ensures GetComplianceStatus(PredictedGrade(Mock.DataStructures, map[])) == Critical
    ensures PredictedGrade(Mock.DataStructures, map["Quiz 2" := 18.0, "Final Exam" := 70.0]) == Finite(2471.0 / 30.0)
    ensures GetComplianceStatus(PredictedGrade(Mock.DataStructures, map["Quiz 2" := 18.0, "Final Exam" := 70.0])) == AtRisk
  {
    var ds := Mock.DataStructures;
    var sims := map["Quiz 2" := 18.0, "Final Exam" := 70.0];
    SumsOfFive(ds, map[]);
    SumsOfFive(ds, sims);
  }
}
