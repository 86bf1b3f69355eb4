/** The CI quality gate (redops-gate/redops_gate.py): parsing and checking metric
    thresholds, and waiting for a run under a deadline. */
module Gate {
  import opened Wrappers
  import opened Collections
  import opened Reals
  import opened Text

  // ----- Thresholds -----

  datatype Operator = AtLeast | AtMost | Above | Below | Equals | Differs

  /** In the order in which the parser looks for them. */
  const CANDIDATES := [AtLeast, AtMost, Above, Below, Equals, Differs]

  datatype Threshold = Threshold(metric: string, expected: real, op: Operator)

  function Sign(op: Operator): string {
    match op
    case AtLeast => ">="
    case AtMost => "<="
    case Above => ">"
    case Below => "<"
    case Equals => "=="
    case Differs => "!="
  }

  function Rank(op: Operator): (r: nat)
    ensures r < |CANDIDATES| && CANDIDATES[r] == op
  {
    match op
    case AtLeast => 0
    case AtMost => 1
    case Above => 2
    case Below => 3
    case Equals => 4
    case Differs => 5
  }

  // ----- Parsing -----

  /** The operator the parser settles on: the first candidate that occurs at all. */
  predicate Chosen(spec: string, op: Operator) {
    && Contains(spec, Sign(op))
    && forall k :: 0 <= k < Rank(op) ==> !Contains(spec, Sign(CANDIDATES[k]))
  }

  const NO_OPERATOR := "invalid threshold"
  const NO_VALUE := "invalid threshold value"

  /** `spec.partition(sign)` for a sign that occurs. */
  function Partition(spec: string, sign: string): (parts: (string, string))
    requires Contains(spec, sign)
    ensures spec == parts.0 + sign + parts.1 && Find(spec, sign) == Some(|parts.0|)
  {
    FindsFirst(spec, sign);
    var i := Find(spec, sign).value;
    (spec[..i], spec[i + |sign|..])
  }

  /** The specification splits at the first occurrence of the chosen operator; the
      left part, stripped, names the metric and the right part must be a number. */
  predicate Parses(toFloat: string -> Option<real>, spec: string, t: Threshold) {
    Chosen(spec, t.op) &&
    var (left, right) := Partition(spec, Sign(t.op));
    t.metric == Strip(left) && toFloat(right) == Some(t.expected)
  }

  ghost predicate Parseable(toFloat: string -> Option<real>, spec: string) {
    exists t :: Parses(toFloat, spec, t)
  }

  /** A specification that does not parse: without any operator, or without a number
      behind the operator chosen. */
  ghost predicate Rejected(toFloat: string -> Option<real>, spec: string, message: string) {
    && !Parseable(toFloat, spec)
    && message == if forall op :: !Contains(spec, Sign(op)) then NO_OPERATOR else NO_VALUE
  }

  method FindOperator(spec: string) returns (operator: Option<Operator>)
    ensures operator.None? ==> forall op :: !Contains(spec, Sign(op))
    ensures operator.Some? ==> Chosen(spec, operator.value)
  {
    operator := None;
    for k := 0 to |CANDIDATES|
      invariant operator.None?
      invariant forall j :: 0 <= j < k ==> !Contains(spec, Sign(CANDIDATES[j]))
    {
      var candidate := CANDIDATES[k];
      if Contains(spec, Sign(candidate)) {
        assert Rank(candidate) == k;
        return Some(candidate);
      }
    }
    forall op: Operator ensures !Contains(spec, Sign(op)) {
      assert CANDIDATES[Rank(op)] == op;
    }
  }

  lemma ChosenUnique(spec: string, op: Operator, other: Operator)
    requires Chosen(spec, op) && Chosen(spec, other)
    ensures op == other
  {
    assert CANDIDATES[Rank(op)] == op && CANDIDATES[Rank(other)] == other;
  }

  method ParseThreshold(toFloat: string -> Option<real>, spec: string) returns (r: Result<Threshold>)
    ensures if r.Ok? then Parses(toFloat, spec, r.value) else Rejected(toFloat, spec, r.message)
  {
    var operator := FindOperator(spec);
    if operator.None? {
      return Raise(NO_OPERATOR);
    }
    var op := operator.value;
    var (metric, numeral) := Partition(spec, Sign(op));
    var value := toFloat(numeral);
    if value.None? {
      forall t: Threshold ensures !Parses(toFloat, spec, t) {
        if Chosen(spec, t.op) { ChosenUnique(spec, t.op, op); }
      }
      return Raise(NO_VALUE);
    }
    r := Ok(Threshold(Strip(metric), value.value, op));
  }

  lemma AllParseable(toFloat: string -> Option<real>, specs: seq<string>, parsed: seq<Threshold>)
    requires |parsed| == |specs| && forall k :: 0 <= k < |specs| ==> Parses(toFloat, specs[k], parsed[k])
    ensures forall k :: 0 <= k < |specs| ==> Parseable(toFloat, specs[k])
  {
  }

  /** Parses every specification, or raises at the first that does not parse. */
  method ParseThresholds(toFloat: string -> Option<real>, specs: seq<string>) returns (r: Result<seq<Threshold>>)
    ensures r.Ok? ==> |r.value| == |specs| && forall i :: 0 <= i < |specs| ==> Parses(toFloat, specs[i], r.value[i])
    ensures r.Raise? ==> exists i :: 0 <= i < |specs| && Rejected(toFloat, specs[i], r.message)
                                     && forall k :: 0 <= k < i ==> Parseable(toFloat, specs[k])
  {
    var parsed: seq<Threshold> := [];
    for i := 0 to |specs|
      invariant |parsed| == i
      invariant forall k :: 0 <= k < i ==> Parses(toFloat, specs[k], parsed[k])
    {
      var t := ParseThreshold(toFloat, specs[i]);
      if t.Raise? {
        AllParseable(toFloat, specs[..i], parsed);
        assert forall k :: 0 <= k < i ==> specs[..i][k] == specs[k];
        return Raise(t.message);
      }
      parsed := parsed + [t.value];
    }
    return Ok(parsed);
  }

  /** There is one way to parse a specification. */
  lemma ParseDetermined(toFloat: string -> Option<real>, spec: string, t: Threshold, u: Threshold)
    requires Parses(toFloat, spec, t) && Parses(toFloat, spec, u)
    ensures t == u
  {
    ChosenUnique(spec, t.op, u.op);
  }

  // ----- Parsing undoes printing -----

  predicate IsSign(c: char) {
    c in "<>=!"
  }

  predicate Plain(s: string) {
    forall c :: c in s ==> !IsSign(c)
  }

  /** `float` accepts no text with an operator character in it. */
  ghost predicate FloatSyntax(toFloat: string -> Option<real>) {
    forall s :: toFloat(s).Some? ==> Plain(s)
  }

  /** Nothing in the metric, together with the operator behind it, reads as an
      operator that the parser would find earlier. */
  predicate Unambiguous(metric: string, op: Operator) {
    && Find(metric + Sign(op), Sign(op)) == Some(|metric|)
    && forall k :: 0 <= k < Rank(op) ==> !Contains(metric + Sign(op), Sign(CANDIDATES[k]))
  }

  /** Every character of an operator is an operator character. */
  lemma SignCharacters(op: Operator)
    ensures 1 <= |Sign(op)| <= 2
    ensures forall k :: 0 <= k < |Sign(op)| ==> IsSign(Sign(op)[k])
  {
  }

  lemma OccursBefore(s: string, t: string, sign: string, i: nat)
    requires Plain(t) && sign != [] && IsSign(sign[|sign| - 1])
    ensures OccursAt(s + t, sign, i) <==> OccursAt(s, sign, i)
  {
    assert forall j :: |s| <= j < |s + t| ==> (s + t)[j] in t;
    if i + |sign| <= |s + t| {
      var last := i + |sign| - 1;
      assert (s + t)[last] == (s + t)[i..i + |sign|][|sign| - 1];
    }
    if i + |sign| <= |s| {
      assert s[i..i + |sign|] == (s + t)[i..i + |sign|];
    }
  }

  /** Plain text behind a string adds no occurrence of an operator. */
  lemma PlainSuffix(s: string, t: string, op: Operator)
    requires Plain(t)
    ensures Find(s + t, Sign(op)) == Find(s, Sign(op))
  {
    forall i: nat ensures OccursAt(s + t, Sign(op), i) <==> OccursAt(s, Sign(op), i) {
      OccursBefore(s, t, Sign(op), i) by { SignCharacters(op); }
    }
    FindSame(s + t, s, Sign(op));
  }

  lemma PartitionIs(left: string, sign: string, right: string)
    requires Find(left + sign + right, sign) == Some(|left|)
    ensures Partition(left + sign + right, sign) == (left, right)
  {
    var parts := Partition(left + sign + right, sign);
    assert parts.0 == (left + sign + right)[..|left|] == left;
    assert parts.1 == (left + sign + right)[|left + sign|..] == right;
  }

  /** The operator first occurs no later than it was printed, and if it occurs
      earlier then what follows is not a number. */
  lemma SplitBehindMetric(metric: string, op: Operator, numeral: string, left: string, right: string)
    requires metric + Sign(op) + numeral == left + Sign(op) + right
    requires Find(metric + Sign(op) + numeral, Sign(op)) == Some(|left|)
    requires Plain(right)
    ensures |left| == |metric|
  {
    var spec := metric + Sign(op) + numeral;
    var last := |metric| + |Sign(op)| - 1;
    SignCharacters(op);
    FindsFirst(spec, Sign(op));
    assert OccursAt(spec, Sign(op), |metric|);
    assert spec[last] == Sign(op)[|Sign(op)| - 1];
    assert forall j :: |left| + |Sign(op)| <= j < |spec| ==> spec[j] in right;
  }

  /** Printing a threshold and parsing it gives it back, stripped, exactly when the
      metric is unambiguous in front of its operator. */
  lemma ParseUndoesPrintExactly(toFloat: string -> Option<real>, metric: string, op: Operator, numeral: string)
    requires FloatSyntax(toFloat) && toFloat(numeral).Some?
    ensures Parses(toFloat, metric + Sign(op) + numeral, Threshold(Strip(metric), toFloat(numeral).value, op))
       <==> Unambiguous(metric, op)
  {
    var head := metric + Sign(op);
    var spec := head + numeral;
    forall other: Operator ensures Find(spec, Sign(other)) == Find(head, Sign(other)) {
      PlainSuffix(head, numeral, other);
    }
    var t := Threshold(Strip(metric), toFloat(numeral).value, op);
    if Parses(toFloat, spec, t) {
      var (left, right) := Partition(spec, Sign(op));
      SplitBehindMetric(metric, op, numeral, left, right);
    }
    if Unambiguous(metric, op) {
      assert Chosen(spec, op);
      PartitionIs(metric, Sign(op), numeral);
    }
  }

  /** In plain text followed by an operator, another operator occurs only within it. */
  lemma OccursWithin(metric: string, sign: string, other: string, i: nat)
    requires Plain(metric) && other != [] && IsSign(other[0])
    requires OccursAt(metric + sign, other, i)
    ensures i >= |metric| && OccursAt(sign, other, i - |metric|)
  {
    var head := metric + sign;
    assert forall j :: 0 <= j < |metric| ==> head[j] in metric;
    assert head[i] == head[i..i + |other|][0];
    assert head[i..i + |other|] == sign[i - |metric|..i - |metric| + |other|];
  }

  /** No operator that is looked for earlier occurs in a later one. */
  lemma SignsApart(op: Operator, earlier: Operator, i: nat)
    requires Rank(earlier) < Rank(op)
    ensures !OccursAt(Sign(op), Sign(earlier), i)
  {
    var s, e := Sign(op), Sign(earlier);
    if i + |e| <= |s| {
      assert s[i..i + |e|][0] == s[i];
      if |e| == 2 { assert s[i..i + |e|] == s; }
    }
  }

  lemma EarlierAbsent(metric: string, op: Operator, other: Operator)
    requires Plain(metric) && Rank(other) < Rank(op)
    ensures !Contains(metric + Sign(op), Sign(other))
  {
    SignCharacters(other);
    FindsFirst(metric + Sign(op), Sign(other));
    if Contains(metric + Sign(op), Sign(other)) {
      var i := Find(metric + Sign(op), Sign(other)).value;
      OccursWithin(metric, Sign(op), Sign(other), i);
      SignsApart(op, other, i - |metric|);
    }
  }

  /** Behind plain text a string is found where that text ends. */
  lemma FoundBehind(metric: string, sign: string)
    requires Plain(metric) && sign != [] && IsSign(sign[0])
    ensures Find(metric + sign, sign) == Some(|metric|)
  {
    forall j: nat | j < |metric| ensures !OccursAt(metric + sign, sign, j) {
      if OccursAt(metric + sign, sign, j) { OccursWithin(metric, sign, sign, j); }
    }
    FindIs(metric + sign, sign, |metric|);
  }

  /** A metric without operator characters is unambiguous in front of every
      operator, although some operators are parts of others. */
  lemma PlainIsUnambiguous(metric: string, op: Operator)
    requires Plain(metric)
    ensures Unambiguous(metric, op)
  {
    SignCharacters(op);
    FoundBehind(metric, Sign(op));
    forall k | 0 <= k < Rank(op) ensures !Contains(metric + Sign(op), Sign(CANDIDATES[k])) {
      EarlierAbsent(metric, op, CANDIDATES[k]);
    }
  }

  /** The parser undoes the printer for every metric and number free of operator
      characters, and every operator. */
  lemma ParseUndoesPrint(toFloat: string -> Option<real>, metric: string, op: Operator, numeral: string)
    requires FloatSyntax(toFloat) && toFloat(numeral).Some? && Plain(metric)
    ensures Parses(toFloat, metric + Sign(op) + numeral, Threshold(Strip(metric), toFloat(numeral).value, op))
  {
    PlainIsUnambiguous(metric, op);
    ParseUndoesPrintExactly(toFloat, metric, op, numeral);
  }

  lemma ContainsAcross(s: string, t: string, p: string)
    requires s != [] && t != [] && p == [s[|s| - 1], t[0]]
    ensures Contains(s + t, p)
  {
    assert (s + t)[|s| - 1..|s| + 1] == p;
    assert OccursAt(s + t, p, |s| - 1);
    FindsFirst(s + t, p);
  }

  lemma GreaterIsAmbiguous(metric: string)
    requires metric != [] && metric[|metric| - 1] == '>'
    ensures !Unambiguous(metric, Equals)
  {
    ContainsAcross(metric, Sign(Equals), Sign(AtLeast));
    assert CANDIDATES[0] == AtLeast;
  }

  /** A metric with operator characters can come back wrong: one that ends in `>`
      cannot be compared with `==`, because `>=` is found first. */
  lemma MetricMisread(toFloat: string -> Option<real>, metric: string, numeral: string)
    requires FloatSyntax(toFloat) && toFloat(numeral).Some?
    requires metric != [] && metric[|metric| - 1] == '>'
    ensures !Parses(toFloat, metric + Sign(Equals) + numeral, Threshold(Strip(metric), toFloat(numeral).value, Equals))
  {
    GreaterIsAmbiguous(metric);
    ParseUndoesPrintExactly(toFloat, metric, Equals, numeral);
  }

  // ----- Checking -----

  /** What the gate reports about a threshold; the wording is not modelled. */
  datatype Violation = NoScore(metric: string) | Breach(threshold: Threshold, actual: real)

  predicate Meets(actual: real, op: Operator, expected: real) {
    match op
    case AtLeast => actual >= expected
    case AtMost => actual <= expected
    case Above => actual > expected
    case Below => actual < expected
    case Equals => actual == expected
    case Differs => actual != expected
  }

  predicate Satisfied(scores: map<string, real>, t: Threshold) {
    t.metric in scores && Meets(scores[t.metric], t.op, t.expected)
  }

  function Unsatisfied(scores: map<string, real>): Threshold -> bool {
    t => !Satisfied(scores, t)
  }

  function Report(scores: map<string, real>, t: Threshold): Violation {
    if t.metric in scores then Breach(t, scores[t.metric]) else NoScore(t.metric)
  }

  method CheckThresholds(scores: map<string, real>, thresholds: seq<Threshold>)
    returns (passed: bool, violations: seq<Violation>)
    ensures passed <==> forall t :: t in thresholds ==> Satisfied(scores, t)
    ensures var failing := Filter(Unsatisfied(scores), thresholds);
            && |violations| == |failing|
            && forall i :: 0 <= i < |failing| ==>
                 violations[i] == if failing[i].metric in scores then Breach(failing[i], scores[failing[i].metric])
                                  else NoScore(failing[i].metric)
  {
    violations := [];
    ghost var failing := [];
    for i := 0 to |thresholds|
      invariant failing == Filter(Unsatisfied(scores), thresholds[..i])
      invariant |violations| == |failing|
      invariant forall k :: 0 <= k < |failing| ==> violations[k] == Report(scores, failing[k])
    {
      var t := thresholds[i];
      assert thresholds[..i + 1][..i] == thresholds[..i];
      if t.metric !in scores {
        violations := violations + [NoScore(t.metric)];
        failing := failing + [t];
      } else {
        var ok := Meets(scores[t.metric], t.op, t.expected);
        if !ok {
          violations := violations + [Breach(t, scores[t.metric])];
          failing := failing + [t];
        }
      }
    }
    assert thresholds[..|thresholds|] == thresholds;
    FilterMembers(Unsatisfied(scores), thresholds);
    assert failing != [] ==> failing[0] in failing;
    passed := |violations| == 0;
  }

  // ----- From the text to the verdict -----

  /** The specification parses, and the scores satisfy what it says. */
  ghost predicate Holds(toFloat: string -> Option<real>, spec: string, scores: map<string, real>) {
    exists t :: Parses(toFloat, spec, t) && Satisfied(scores, t)
  }

  lemma PrintedHolds(toFloat: string -> Option<real>, metric: string, op: Operator, numeral: string,
                     scores: map<string, real>)
    requires FloatSyntax(toFloat) && toFloat(numeral).Some? && Unambiguous(metric, op)
    ensures Holds(toFloat, metric + Sign(op) + numeral, scores) <==>
              Satisfied(scores, Threshold(Strip(metric), toFloat(numeral).value, op))
  {
    var spec, t := metric + Sign(op) + numeral, Threshold(Strip(metric), toFloat(numeral).value, op);
    ParseUndoesPrintExactly(toFloat, metric, op, numeral);
    forall u | Parses(toFloat, spec, u) ensures u == t {
      ParseDetermined(toFloat, spec, u, t);
    }
  }

  /** What each written operator asks of the score: whatever numeral is written behind
      it, `>=` a score at least as high, `<=` one at most as high, `>` a higher and `<` a
      lower one, `==` the same and `!=` another; without a score nothing holds. */
  lemma WrittenMeaning(toFloat: string -> Option<real>, metric: string, numeral: string, scores: map<string, real>)
    requires FloatSyntax(toFloat) && toFloat(numeral).Some? && Plain(metric) && Strip(metric) == metric
    ensures var v := toFloat(numeral).value;
            && (Holds(toFloat, metric + ">=" + numeral, scores) <==> metric in scores && scores[metric] >= v)
            && (Holds(toFloat, metric + "<=" + numeral, scores) <==> metric in scores && scores[metric] <= v)
            && (Holds(toFloat, metric + ">" + numeral, scores) <==> metric in scores && scores[metric] > v)
            && (Holds(toFloat, metric + "<" + numeral, scores) <==> metric in scores && scores[metric] < v)
            && (Holds(toFloat, metric + "==" + numeral, scores) <==> metric in scores && scores[metric] == v)
            && (Holds(toFloat, metric + "!=" + numeral, scores) <==> metric in scores && scores[metric] != v)
  {
    forall op: Operator
      ensures Holds(toFloat, metric + Sign(op) + numeral, scores) <==>
                Satisfied(scores, Threshold(metric, toFloat(numeral).value, op))
    {
      PlainIsUnambiguous(metric, op);
      PrintedHolds(toFloat, metric, op, numeral, scores);
    }
    assert Sign(AtLeast) == ">=" && Sign(AtMost) == "<=" && Sign(Above) == ">" && Sign(Below) == "<"
        && Sign(Equals) == "==" && Sign(Differs) == "!=";
  }

  /** Parsing specifications and checking what they parse to passes exactly when each of
      them holds of the scores. */
  lemma AllHold(toFloat: string -> Option<real>, specs: seq<string>, parsed: seq<Threshold>,
                scores: map<string, real>)
    requires |parsed| == |specs| && forall i :: 0 <= i < |specs| ==> Parses(toFloat, specs[i], parsed[i])
    ensures (forall t :: t in parsed ==> Satisfied(scores, t)) <==>
              forall i :: 0 <= i < |specs| ==> Holds(toFloat, specs[i], scores)
  {
    forall i | 0 <= i < |specs| ensures Holds(toFloat, specs[i], scores) <==> Satisfied(scores, parsed[i]) {
      forall u | Parses(toFloat, specs[i], u) ensures u == parsed[i] {
        ParseDetermined(toFloat, specs[i], u, parsed[i]);
      }
    }
    assert forall i :: 0 <= i < |parsed| ==> parsed[i] in parsed;
  }

  // ----- Waiting for the run -----

  const COMPLETED := "completed"
  const FAILED := "failed"
  const CANCELLED := "cancelled"
  const TERMINAL := {COMPLETED, FAILED, CANCELLED, "completed_with_errors"}

  /** Everything the gate meets: the answer to its request, the answer to each poll,
      the clock readings (one to set the deadline, then one behind each status that is
      not terminal) and the scores.  A status may be missing from an answer. */
  datatype Surroundings = Surroundings(
    started: Result<Option<string>>, poll: nat -> Result<Option<string>>, clock: nat -> real,
    scores: map<string, real>)
  {
    /** The answer looked at after `k` polls. */
    function Answer(k: nat): Result<Option<string>> {
      if k == 0 then started else poll(k)
    }

    predicate TerminalAt(k: nat) {
      Answer(k).Ok? && Answer(k).value.Some? && Answer(k).value.value in TERMINAL
    }

    predicate PendingAt(k: nat) {
      Answer(k).Ok? && !TerminalAt(k)
    }

    /** The clock never goes back, and at least `step` passes from one poll to the next. */
    ghost predicate Advances(step: real) {
      clock(1) >= clock(0) && forall k: nat :: k >= 1 ==> Later(k, step)
    }

    predicate Later(k: nat, step: real) {
      clock(k + 1) >= clock(k) + step
    }
  }

  datatype Arguments = Arguments(thresholds: seq<Threshold>, timeout: real, pollInterval: real)

  /** A process exit code, or an exception that the gate does not catch. */
  datatype Outcome = Exit(code: nat) | Crash

  predicate LateAt(env: Surroundings, args: Arguments, k: nat) {
    env.clock(k + 1) >= env.clock(0) + args.timeout
  }

  function Verdict(env: Surroundings, args: Arguments, status: string): nat {
    if status in {FAILED, CANCELLED} then 3
    else if forall t :: t in args.thresholds ==> Satisfied(env.scores, t) then 0
    else 1
  }

  /** How a gate that stops waiting after `k` polls ends. */
  function Ending(env: Surroundings, args: Arguments, k: nat): Option<Outcome> {
    if env.Answer(k).Raise? then Some(if k == 0 then Exit(2) else Crash)
    else if env.TerminalAt(k) then Some(Exit(Verdict(env, args, env.Answer(k).value.value)))
    else if LateAt(env, args, k) then Some(Exit(4))
    else if args.pollInterval < 0.0 then Some(Crash)
    else None
  }

  /** The gate is still waiting when it has the answer to poll `k`. */
  ghost predicate Waits(env: Surroundings, args: Arguments, k: nat) {
    forall j: nat :: j < k ==> Ending(env, args, j) == None
  }

  ghost predicate Ends(env: Surroundings, args: Arguments, k: nat, outcome: Outcome) {
    Waits(env, args, k) && Ending(env, args, k) == Some(outcome)
  }

  lemma {:induction false} ClockAdvances(env: Surroundings, step: real, k: nat)
    requires env.Advances(step)
    ensures env.clock(k + 1) >= env.clock(0) + k as real * step
  {
    if k == 0 {
    } else {
      ClockAdvances(env, step, k - 1);
      assert env.Later(k, step);
      assert k as real * step == (k - 1) as real * step + step;
    }
  }

  /** The polls that fit before the deadline: the timeout divided by the step, rounded up. */
  function PollLimit(timeout: real, step: real): int
    requires step > 0.0
  {
    Ceiling(timeout / step)
  }

  /** While the deadline has not passed, another poll is within the limit. */
  lemma WithinLimit(env: Surroundings, args: Arguments, step: real, k: nat)
    requires step > 0.0 && env.Advances(step) && !LateAt(env, args, k)
    ensures k + 1 <= PollLimit(args.timeout, step)
  {
    ClockAdvances(env, step, k);
    var x, y := args.timeout / step, k as real;
    assert x * step == args.timeout;
    MulOrder(x, y, step);
    CeilingOrder(x, k);
  }

  /** `run_gate`.  At least `step` passes between two looks at the clock with a poll in
      between, which for a positive poll interval is that interval. */
  method RunGate(env: Surroundings, args: Arguments, ghost step: real) returns (outcome: Outcome, polls: nat)
    requires step > 0.0 && env.Advances(step)
    ensures Ends(env, args, polls, outcome)
    ensures polls <= Max(PollLimit(args.timeout, step), 0)
  {
    polls := 0;
    if env.started.Raise? {
      return Exit(2), 0;
    }
    var deadline := env.clock(0) + args.timeout;
    var status := env.started.value;
    while !(status.Some? && status.value in TERMINAL)
      invariant Waits(env, args, polls) && polls <= Max(PollLimit(args.timeout, step), 0)
      invariant env.Answer(polls) == Ok(status)
      decreases PollLimit(args.timeout, step) - polls
    {
      if env.clock(polls + 1) >= deadline {
        return Exit(4), polls;
      }
      WithinLimit(env, args, step, polls);
      if args.pollInterval < 0.0 {
        return Crash, polls;
      }
      polls := polls + 1;
      var answer := env.poll(polls);
      if answer.Raise? {
        return Crash, polls;
      }
      status := answer.value;
    }
    if status.value in {FAILED, CANCELLED} {
      return Exit(3), polls;
    }
    var passed, _ := CheckThresholds(env.scores, args.thresholds);
    return Exit(if passed then 0 else 1), polls;
  }

  lemma EndsOnce(env: Surroundings, args: Arguments, k: nat, outcome: Outcome, j: nat, other: Outcome)
    requires Ends(env, args, k, outcome) && Ends(env, args, j, other)
    ensures k == j && outcome == other
  {
  }

  // ----- Exit codes, from the answers and the clock -----

  /** An answer without a status, or with one that is not final. */
  predicate StillRunning(answer: Result<Option<string>>) {
    answer.Ok? && (answer.value.None?
                   || answer.value.value !in {"completed", "failed", "cancelled", "completed_with_errors"})
  }

  /** At the `k`-th answer the run is going on and the deadline has not passed. */
  predicate GoesOn(env: Surroundings, args: Arguments, k: nat) {
    StillRunning(env.Answer(k)) && env.clock(k + 1) < env.clock(0) + args.timeout && args.pollInterval >= 0.0
  }

  /** So it was at every answer before the `k`-th. */
  ghost predicate Polls(env: Surroundings, args: Arguments, k: nat) {
    forall j: nat :: j < k ==> GoesOn(env, args, j)
  }

  /** The first final status that the gate sees before it gives up. */
  ghost predicate FirstFinal(env: Surroundings, args: Arguments, k: nat, status: string) {
    Polls(env, args, k) && env.Answer(k) == Ok(Some(status)) && !StillRunning(env.Answer(k))
  }

  lemma Statuses(env: Surroundings, k: nat)
    ensures env.PendingAt(k) <==> StillRunning(env.Answer(k))
  {
  }

  lemma EndingMeans(env: Surroundings, args: Arguments, k: nat)
    ensures Ending(env, args, k) == None <==> GoesOn(env, args, k)
  {
    Statuses(env, k);
  }

  lemma WaitsMeans(env: Surroundings, args: Arguments, k: nat)
    ensures Waits(env, args, k) <==> Polls(env, args, k)
  {
    forall j: nat ensures Ending(env, args, j) == None <==> GoesOn(env, args, j) {
      EndingMeans(env, args, j);
    }
  }

  /** The outcome at the end of the polls. */
  lemma EndingIs(env: Surroundings, args: Arguments, k: nat)
    ensures env.Answer(k).Raise? ==> Ending(env, args, k) == Some(if k == 0 then Exit(2) else Crash)
    ensures forall status :: env.Answer(k) == Ok(Some(status)) && !StillRunning(env.Answer(k)) ==>
              Ending(env, args, k) == Some(Exit(if status in {"failed", "cancelled"} then 3
                                                else if forall t :: t in args.thresholds ==> Satisfied(env.scores, t)
                                                then 0 else 1))
    ensures StillRunning(env.Answer(k)) && env.clock(k + 1) >= env.clock(0) + args.timeout ==>
              Ending(env, args, k) == Some(Exit(4))
  {
    Statuses(env, k);
  }

  /** What each exit code means, in terms of the answers to the polls, the clock and the
      thresholds. */
  lemma ExitCodes(env: Surroundings, args: Arguments, polls: nat, outcome: Outcome)
    requires Ends(env, args, polls, outcome)
    ensures outcome == Exit(0) <==>
            (exists k: nat, status :: FirstFinal(env, args, k, status) && status !in {"failed", "cancelled"})
            && forall t :: t in args.thresholds ==> Satisfied(env.scores, t)
    ensures outcome == Exit(1) <==>
            (exists k: nat, status :: FirstFinal(env, args, k, status) && status !in {"failed", "cancelled"})
            && exists t :: t in args.thresholds && !Satisfied(env.scores, t)
    ensures outcome == Exit(2) <==> env.started.Raise?
    ensures outcome == Exit(3) <==>
            exists k: nat, status :: FirstFinal(env, args, k, status) && status in {"failed", "cancelled"}
    ensures outcome == Exit(4) <==>
            exists k: nat :: Polls(env, args, k) && StillRunning(env.Answer(k))
                             && env.clock(k + 1) >= env.clock(0) + args.timeout
  {
    forall k: nat, status | FirstFinal(env, args, k, status)
      ensures k == polls && outcome == Ending(env, args, k).value
    {
      WaitsMeans(env, args, k);
      EndingIs(env, args, k);
      EndsOnce(env, args, polls, outcome, k, Ending(env, args, k).value);
    }
    forall k: nat
      | Polls(env, args, k) && StillRunning(env.Answer(k)) && env.clock(k + 1) >= env.clock(0) + args.timeout
      ensures k == polls && outcome == Exit(4)
    {
      WaitsMeans(env, args, k);
      EndingIs(env, args, k);
      EndsOnce(env, args, polls, outcome, k, Exit(4));
    }
    WaitsMeans(env, args, polls);
    EndingIs(env, args, polls);
    if env.started.Raise? {
      EndingIs(env, args, 0);
      EndsOnce(env, args, polls, outcome, 0, Exit(2));
    } else if env.Answer(polls).Ok? && !StillRunning(env.Answer(polls)) {
      assert FirstFinal(env, args, polls, env.Answer(polls).value.value);
    }
  }
}
