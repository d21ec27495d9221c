/** Claim collection and grading of one transcript text.

    The regular expressions, the negation check and the sentence embedding are parameters.
    Ratios are rounded to hundredths before they are compared; a rounded ratio is represented by
    its number of hundredths, and every nearest hundredth is allowed at a tie, because the binary
    quotient may fall on either side of it.
  */
module CvvGrade {
  import opened Basics

  // ---- Claims and the turn they belong to -----------------------------------------------------

  const USER_HEADING := "## User"

  predicate TurnBoundary(line: string) {
    USER_HEADING <= line
  }

  datatype Claim = Claim(line: nat, byMarker: bool, byAction: bool)

  /** What the claim finder asks of the text it cannot be seen through. */
  datatype Detector = Detector(
    isClaim: string -> bool,
    hasToolMarker: seq<string> -> bool,
    isAction: string -> bool,
    actionFallback: bool)

  /** The start of line i's turn: the nearest boundary above it, or the top of the text. */
  ghost predicate IsTurnStart(lines: seq<string>, i: nat, start: nat)
    requires i <= |lines|
  {
    && start <= i
    && (start == 0 || (start < i && TurnBoundary(lines[start])))
    && forall j :: start < j < i ==> !TurnBoundary(lines[j])
  }

  function TurnStart(lines: seq<string>, i: nat): (start: nat)
    requires i <= |lines|
    ensures IsTurnStart(lines, i, start)
  {
    if i == 0 then 0
    else if TurnBoundary(lines[i - 1]) then i - 1
    else TurnStart(lines, i - 1)
  }

  method TurnStartLine(lines: seq<string>, i: nat) returns (start: nat)
    requires i <= |lines|
    ensures IsTurnStart(lines, i, start)
  {
    var j: int := i - 1;
    while j > -1
      invariant -1 <= j < i
      invariant forall k :: j < k < i ==> !TurnBoundary(lines[k])
    {
      if TurnBoundary(lines[j]) {
        return j;
      }
      j := j - 1;
    }
    return 0;
  }

  lemma {:induction false} TurnStartUnique(lines: seq<string>, i: nat, a: nat, b: nat)
    requires i <= |lines| && IsTurnStart(lines, i, a) && IsTurnStart(lines, i, b)
    ensures a == b
  {
  }

  /** What backs a claim with these lines above it in its turn: a tool marker, or else an action. */
  function Backing(above: seq<string>, d: Detector): (bool, bool) {
    var marker := d.hasToolMarker(above);
    (marker, !marker && d.actionFallback && exists j | 0 <= j < |above| :: d.isAction(above[j]))
  }

  function Judge(lines: seq<string>, i: nat, d: Detector): seq<Claim>
    requires i < |lines|
  {
    if !d.isClaim(lines[i]) then []
    else
      var (marker, action) := Backing(lines[TurnStart(lines, i)..i], d);
      [Claim(i + 1, marker, action)]
  }

  function Claims(lines: seq<string>, from: nat, d: Detector): seq<Claim>
    requires from <= |lines|
    decreases |lines| - from
  {
    if from == |lines| then [] else Judge(lines, from, d) + Claims(lines, from + 1, d)
  }

  method FindVerifiedClaims(lines: seq<string>, d: Detector) returns (claims: seq<Claim>)
    ensures claims == Claims(lines, 0, d)
  {
    hide TurnStart, IsTurnStart;
    claims := [];
    for i := 0 to |lines|
      invariant claims + Claims(lines, i, d) == Claims(lines, 0, d)
    {
      var line := lines[i];
      var judged := [];
      if d.isClaim(line) {
        var turnStart := TurnStartLine(lines, i);
        TurnStartUnique(lines, i, turnStart, TurnStart(lines, i));
        var preceding := lines[turnStart..i];
        var hasMarker := d.hasToolMarker(preceding);
        var hasAction := false;
        if !hasMarker && d.actionFallback {
          hasAction := exists j | 0 <= j < |preceding| :: d.isAction(preceding[j]);
        }
        judged := [Claim(i + 1, hasMarker, hasAction)];
      }
      Regroup(claims, judged, Claims(lines, i + 1, d));
      claims := claims + judged;
    }
  }

  function Moved(claims: seq<Claim>, offset: nat): seq<Claim> {
    if claims == [] then [] else [claims[0].(line := claims[0].line + offset)] + Moved(claims[1..], offset)
  }

  lemma {:induction false} MovedConcat(a: seq<Claim>, b: seq<Claim>, offset: nat)
    ensures Moved(a + b, offset) == Moved(a, offset) + Moved(b, offset)
  {
    if a == [] {
      assert a + b == b;
    } else {
      MovedConcat(a[1..], b, offset);
      assert (a + b)[1..] == a[1..] + b && (a + b)[0] == a[0];
      Regroup([a[0].(line := a[0].line + offset)], Moved(a[1..], offset), Moved(b, offset));
    }
  }

  lemma {:induction false} TurnStartBelow(a: seq<string>, b: seq<string>, i: nat)
    requires 0 < i <= |b| && TurnBoundary(b[0])
    ensures TurnStart(a + b, |a| + i) == |a| + TurnStart(b, i)
  {
    assert (a + b)[|a| + i - 1] == b[i - 1];
    if i > 1 { TurnStartBelow(a, b, i - 1); }
  }

  lemma {:induction false} TurnStartAbove(a: seq<string>, b: seq<string>, i: nat)
    requires i <= |a|
    ensures TurnStart(a + b, i) == TurnStart(a, i)
  {
    if i > 0 {
      assert (a + b)[i - 1] == a[i - 1];
      TurnStartAbove(a, b, i - 1);
    }
  }

  lemma {:induction false} JudgeBelow(a: seq<string>, b: seq<string>, i: nat, d: Detector)
    requires 0 < i < |b| && TurnBoundary(b[0])
    ensures Judge(a + b, |a| + i, d) == Moved(Judge(b, i, d), |a|)
  {
    TurnStartBelow(a, b, i);
    hide TurnStart, Backing;
    var s := TurnStart(b, i);
    assert (a + b)[|a| + s..|a| + i] == b[s..i];
  }

  /** Below its heading, a turn's claims are judged inside the turn. */
  lemma {:induction false} ClaimsBelow(a: seq<string>, b: seq<string>, i: nat, d: Detector)
    requires 0 < i <= |b| && TurnBoundary(b[0])
    ensures Claims(a + b, |a| + i, d) == Moved(Claims(b, i, d), |a|)
    decreases |b| - i
  {
    if i < |b| {
      ClaimsBelow(a, b, i + 1, d);
      JudgeBelow(a, b, i, d);
      hide Judge;
      MovedConcat(Judge(b, i, d), Claims(b, i + 1, d), |a|);
    }
  }

  /** The lines of the last turn of a text. */
  function LastTurn(a: seq<string>): seq<string> { a[TurnStart(a, |a|)..] }

  lemma {:induction false} JudgeHeading(a: seq<string>, b: seq<string>, d: Detector)
    requires b != []
    ensures Judge(a + b, |a|, d) == Moved(Judge(b, 0, d), |a|) <==>
              !d.isClaim(b[0]) || Backing(LastTurn(a), d) == Backing([], d)
  {
    TurnStartAbove(a, b, |a|);
    var s := TurnStart(a, |a|);
    assert (a + b)[s..|a|] == LastTurn(a) && b[0..0] == [];
    hide TurnStart, Backing, LastTurn;
    if d.isClaim(b[0]) {
      var (m, n) := Backing([], d);
      assert Moved([Claim(1, m, n)], |a|) == [Claim(|a| + 1, m, n)];
    }
  }

  lemma {:induction false} JudgeAbove(a: seq<string>, b: seq<string>, i: nat, d: Detector)
    requires i < |a|
    ensures Judge(a + b, i, d) == Judge(a, i, d)
  {
    TurnStartAbove(a, b, i);
    hide TurnStart;
    var s := TurnStart(a, i);
    assert (a + b)[s..i] == a[s..i];
  }

  /** The claims above a later line do not depend on that line. */
  lemma {:induction false} ClaimsAbove(a: seq<string>, b: seq<string>, i: nat, d: Detector)
    requires i <= |a|
    ensures Claims(a + b, i, d) == Claims(a, i, d) + Claims(a + b, |a|, d)
    decreases |a| - i
  {
    if i < |a| {
      ClaimsAbove(a, b, i + 1, d);
      JudgeAbove(a, b, i, d);
      hide Judge;
      var rest := Claims(a + b, |a|, d);
      assert Claims(a, i, d) + rest == Judge(a, i, d) + (Claims(a, i + 1, d) + rest);
    }
  }

  lemma {:induction false} MovedCount(claims: seq<Claim>, offset: nat)
    ensures |Moved(claims, offset)| == |claims|
  {
    if claims != [] { MovedCount(claims[1..], offset); }
  }

  lemma {:induction false} SplitClaims(h: seq<Claim>, r: seq<Claim>, top: seq<Claim>, h': seq<Claim>)
    requires |h| == |h'|
    ensures top + (h + r) == top + (h' + r) <==> h == h'
  {
    if top + (h + r) == top + (h' + r) {
      assert h == (top + (h + r))[|top|..|top| + |h|];
      assert h' == (top + (h' + r))[|top|..|top| + |h'|];
    }
  }

  /** A transcript's claims are those of its turns, line numbers shifted, if and only if the later
      turn's heading is no claim, or the turn above backs it no more and no less than no text does: a
      claim on a heading line is judged by the turn above. */
  lemma {:induction false} TurnsIndependent(a: seq<string>, b: seq<string>, d: Detector)
    requires b != [] && TurnBoundary(b[0])
    ensures Claims(a + b, 0, d) == Claims(a, 0, d) + Moved(Claims(b, 0, d), |a|) <==>
              !d.isClaim(b[0]) || Backing(LastTurn(a), d) == Backing([], d)
  {
    ClaimsAbove(a, b, 0, d);
    ClaimsBelow(a, b, 1, d);
    JudgeHeading(a, b, d);
    MovedConcat(Judge(b, 0, d), Claims(b, 1, d), |a|);
    MovedCount(Judge(b, 0, d), |a|);
    JudgeCounts(a, b, d);
    SplitClaims(Judge(a + b, |a|, d), Moved(Claims(b, 1, d), |a|), Claims(a, 0, d), Moved(Judge(b, 0, d), |a|));
    hide Judge, Moved, Backing, LastTurn;
  }

  lemma {:induction false} JudgeCounts(a: seq<string>, b: seq<string>, d: Detector)
    requires b != []
    ensures |Judge(a + b, |a|, d)| == |Judge(b, 0, d)|
  {
    hide TurnStart, Backing;
  }

  const TOOL := "**Tool: bash**"
  const VERIFIED_HEADING := "## User: verified"

  /** A detector for which it fails: the tool call of the turn above backs the heading's claim. */
  lemma {:induction false} HeadingClaim()
    ensures var d := Detector(l => l == VERIFIED_HEADING, above => above == [TOOL], l => false, false);
            && Claims([TOOL, VERIFIED_HEADING], 0, d) == [Claim(2, true, false)]
            && Claims([TOOL], 0, d) == []
            && Claims([VERIFIED_HEADING], 0, d) == [Claim(1, false, false)]
            && TurnBoundary(VERIFIED_HEADING)
            && Claims([TOOL, VERIFIED_HEADING], 0, d) !=
               Claims([TOOL], 0, d) + Moved(Claims([VERIFIED_HEADING], 0, d), 1)
  {
    var d := Detector(l => l == VERIFIED_HEADING, above => above == [TOOL], l => false, false);
    assert TOOL[0] == '*' && VERIFIED_HEADING[0] == '#';
    var both := [TOOL, VERIFIED_HEADING];
    assert TurnStart(both, 1) == 0 && both[0..1] == [TOOL];
    assert Claims(both, 2, d) == [] && Claims(both, 1, d) == [Claim(2, true, false)];
    assert Claims([TOOL], 1, d) == [] && Claims([VERIFIED_HEADING], 1, d) == [];
    assert [VERIFIED_HEADING][0..0] == [];
    assert Moved([Claim(1, false, false)], 1) == [Claim(2, false, false)];
  }

  function BackedCount(claims: seq<Claim>): nat {
    if claims == [] then 0
    else (if claims[0].byMarker || claims[0].byAction then 1 else 0) + BackedCount(claims[1..])
  }

  // ---- Rounded ratios -------------------------------------------------------------------------

  /** k hundredths is a nearest two-digit rounding of num / den. */
  predicate RoundsTo(num: nat, den: nat, k: nat) {
    -(den as int) <= 2 * (100 * num - k * den) <= den
  }

  /** Half-to-even rounding to hundredths. */
  function Round2(num: nat, den: nat): (k: nat)
    requires den > 0
    ensures RoundsTo(num, den, k)
  {
    var q, r := (100 * num) / den, (100 * num) % den;
    assert 100 * num == q * den + r;
    if 2 * r < den || (2 * r == den && q % 2 == 0) then q
    else
      assert (q + 1) * den == q * den + den;
      q + 1
  }

  datatype Grade = Pass | Partial | Fail

  /** The claim-backing part of the grade, as the code computes it from the rounded ratio. */
  function ClaimGrade(verified: nat, backed: nat, ratioPct: nat): Grade
    requires backed <= verified
  {
    if verified - backed > MAX_UNBACKED || (verified > 0 && ratioPct < MIN_BACKED_PCT) then Fail
    else if verified > 0 && ratioPct < PARTIAL_BACKED_PCT then Partial
    else Pass
  }

  /** The same decision on the exact ratio. */
  function ExactClaimGrade(verified: nat, backed: nat): Grade
    requires backed <= verified
  {
    if verified - backed > MAX_UNBACKED || (verified > 0 && 2 * backed < verified) then Fail
    else if verified > 0 && 10 * backed < 7 * verified then Partial
    else Pass
  }

  const MAX_UNBACKED := 2
  const MIN_BACKED_PCT := 50
  const PARTIAL_BACKED_PCT := 70
  const MIN_TOOL_THINK_PCT := 10

  lemma {:induction false} TimesBound(k: nat, den: nat, c: nat)
    ensures k < c ==> k * den <= (c - 1) * den
    ensures k >= c ==> k * den >= c * den
  {
  }

  lemma {:induction false} RoundingBands(verified: nat, backed: nat, k: nat, scaled: nat)
    requires backed <= verified && -(verified as int) <= 2 * (100 * backed - scaled) <= verified
    requires if k < 50 then scaled <= 49 * verified else scaled >= 50 * verified
    requires if k < 70 then scaled <= 69 * verified else scaled >= 70 * verified
    ensures ClaimGrade(verified, backed, k) == ExactClaimGrade(verified, backed)
  {
  }

  /** Rounding never changes the claim-backing part of the grade: a ratio that rounds across one
      half or seven tenths has more than two unbacked claims, which fails anyway. */
  lemma {:induction false} RoundingHarmless(verified: nat, backed: nat, k: nat)
    requires backed <= verified && RoundsTo(backed, if verified == 0 then 1 else verified, k)
    ensures ClaimGrade(verified, backed, k) == ExactClaimGrade(verified, backed)
  {
    if verified > 0 {
      TimesBound(k, verified, 50);
      TimesBound(k, verified, 70);
      RoundingBands(verified, backed, k, k * verified);
    }
  }

  lemma {:induction false} ToolRatioBand(tools: nat, thinking: nat, k: nat, scaled: nat)
    requires thinking > 0 && 200 * tools != 19 * thinking
    requires -(thinking as int) <= 2 * (100 * tools - scaled) <= thinking
    requires if k < 10 then scaled <= 9 * thinking else scaled >= 10 * thinking
    ensures k < 10 <==> 200 * tools < 19 * thinking
  {
  }

  /** For the tool-to-thinking ratio rounding does matter, on exactly one band of ratios: those
      below one tenth that are above nineteen two-hundredths.  (At the tie either may happen.) */
  lemma {:induction false} ToolRatioRounding(tools: nat, thinking: nat, k: nat)
    requires thinking > 0 && RoundsTo(tools, thinking, k) && 200 * tools != 19 * thinking
    ensures (k < MIN_TOOL_THINK_PCT) != (10 * tools < thinking)
       <==> 19 * thinking < 200 * tools < 20 * thinking
  {
    TimesBound(k, thinking, 10);
    ToolRatioBand(tools, thinking, k, k * thinking);
  }

  lemma {:induction false} ToolRatioRoundsUp()
    ensures Round2(2, 21) == MIN_TOOL_THINK_PCT && 10 * 2 < 21
  {
  }

  // ---- The grade ------------------------------------------------------------------------------

  datatype Tally = Tally(
    toolCalls: nat, thinking: nat, claims: seq<Claim>, unverifiedIntents: nat,
    c1: nat, c2: nat, c5: nat, c6: nat, c7: nat)

  datatype Violation = UnbackedClaims | ToolThinkRatio | BackedRatio | TrainingPrecedence

  function Modes(t: Tally): seq<string> {
    (if t.c1 > 0 then ["C1"] else []) + (if t.c2 > 0 then ["C2"] else []) +
    (if t.c5 > 0 then ["C5"] else []) + (if t.c6 > 0 then ["C6"] else []) +
    (if t.c7 > 0 then ["C7"] else [])
  }

  predicate Violates(t: Tally, v: Violation) {
    var n := |t.claims|;
    var backed := BackedCount(t.claims);
    match v
    case UnbackedClaims => n - backed > MAX_UNBACKED
    case ToolThinkRatio =>
      t.thinking > 3 && Round2(t.toolCalls, t.thinking) < MIN_TOOL_THINK_PCT
    case BackedRatio => n > 0 && Round2(backed, n) < MIN_BACKED_PCT
    case TrainingPrecedence => t.c7 > 0
  }

  lemma {:induction false} BackedAtMost(claims: seq<Claim>)
    ensures BackedCount(claims) <= |claims|
  {
    if claims != [] { BackedAtMost(claims[1..]); }
  }

  function Violations(t: Tally): seq<Violation> {
    (if Violates(t, UnbackedClaims) then [UnbackedClaims] else []) +
    (if Violates(t, ToolThinkRatio) then [ToolThinkRatio] else []) +
    (if Violates(t, BackedRatio) then [BackedRatio] else []) +
    (if Violates(t, TrainingPrecedence) then [TrainingPrecedence] else [])
  }

  function ClaimPart(t: Tally): Grade {
    BackedAtMost(t.claims);
    ExactClaimGrade(|t.claims|, BackedCount(t.claims))
  }

  /** The two claim violations together are the exact claim part of the grade. */
  lemma {:induction false} ClaimViolations(t: Tally)
    ensures Violates(t, UnbackedClaims) || Violates(t, BackedRatio) <==> ClaimPart(t) == Fail
    ensures !Violates(t, UnbackedClaims) && !Violates(t, BackedRatio) && |t.claims| > 0 ==>
              (Round2(BackedCount(t.claims), |t.claims|) < PARTIAL_BACKED_PCT <==> ClaimPart(t) == Partial)
    ensures |t.claims| == 0 ==> ClaimPart(t) == Pass
  {
    BackedAtMost(t.claims);
    var n, backed := |t.claims|, BackedCount(t.claims);
    RoundingHarmless(n, backed, Round2(backed, if n > 1 then n else 1));
  }

  method FailureModes(t: Tally) returns (modes: seq<string>)
    ensures modes == Modes(t)
  {
    modes := [];
    if t.c1 > 0 { modes := modes + ["C1"]; }
    if t.c2 > 0 { modes := modes + ["C2"]; }
    if t.c5 > 0 { modes := modes + ["C5"]; }
    if t.c6 > 0 { modes := modes + ["C6"]; }
    if t.c7 > 0 { modes := modes + ["C7"]; }
  }

  /** The grade in exact terms: only the tool-to-thinking test still sees a rounded ratio. */
  method GradeCvv(t: Tally) returns (grade: Grade, violations: seq<Violation>, modes: seq<string>)
    ensures violations == Violations(t) && modes == Modes(t)
    ensures grade == Fail <==> ClaimPart(t) == Fail || t.c7 > 0 || Violates(t, ToolThinkRatio)
    ensures grade == Pass <==> ClaimPart(t) == Pass && !Violates(t, ToolThinkRatio) &&
                               t.unverifiedIntents == 0 && Modes(t) == []
  {
    BackedAtMost(t.claims);
    ClaimViolations(t);
    hide ClaimPart, Round2, BackedCount;
    var n, backed := |t.claims|, BackedCount(t.claims);
    var unbacked := n - backed;
    var toolThinkPct := Round2(t.toolCalls, if t.thinking > 1 then t.thinking else 1);
    var backedPct := Round2(backed, if n > 1 then n else 1);
    violations := [];
    modes := FailureModes(t);
    if unbacked > MAX_UNBACKED { violations := violations + [UnbackedClaims]; }
    if toolThinkPct < MIN_TOOL_THINK_PCT && t.thinking > 3 { violations := violations + [ToolThinkRatio]; }
    if n > 0 && backedPct < MIN_BACKED_PCT { violations := violations + [BackedRatio]; }
    if t.c7 > 0 { violations := violations + [TrainingPrecedence]; }
    assert violations == Violations(t);
    grade := Pass;
    if violations != [] {
      grade := Fail;
    } else if t.unverifiedIntents > 0 || |modes| > 0 || (n > 0 && backedPct < PARTIAL_BACKED_PCT) {
      grade := Partial;
    }
  }
}
