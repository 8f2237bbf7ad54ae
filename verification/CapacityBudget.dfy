/** What a run asks of its access token before it starts (apps/api/scripts/
    deployed-capacity-lib.ts, lines 44-55 and 397-445). */
module CapacityBudget {

  const MIN_TOKEN_VALIDITY_SECONDS := 600
  const TOKEN_EXPIRY_BUFFER_SECONDS := 120
  const MAX_CONCURRENCY := 500
  const MAX_LEVELS := 12
  const MAX_API_ROUNDS := 10
  const MIN_DEADLINE_MS := 1_000
  const MAX_DEADLINE_MS := 60_000
  const MIN_DWELL_MS := 1_000
  const MAX_DWELL_MS := 30_000
  const DEADLINE_SCHEDULING_TOLERANCE_MS := 100
  const DWELL_TOLERANCE_MS := 1_000

  datatype Scenario = Api | Realtime | All

  datatype Config = Config(
    scenario: Scenario,
    apiRamp: seq<int>,
    realtimeRamp: seq<int>,
    apiRounds: int,
    deadlineMs: int,
    dwellMs: int
  )

  predicate InRange(value: int) { 1 <= value <= MAX_CONCURRENCY }

  ghost predicate ValidRamp(values: seq<int>) {
    && 1 <= |values| <= 12
    && (forall i :: 0 <= i < |values| ==> 1 <= values[i] <= 500)
    && (forall i, j :: 0 <= i < j < |values| ==> values[i] < values[j])
  }

  /** Neighbours are compared; the whole ramp is then in order. */
  method ValidateRamp(values: seq<int>) returns (ok: bool)
    ensures ok <==> ValidRamp(values)
  {
    if |values| == 0 || |values| > MAX_LEVELS || exists i :: 0 <= i < |values| && !InRange(values[i]) {
      return false;
    }
    for index := 1 to |values|
      invariant forall i, j :: 0 <= i < j < index ==> values[i] < values[j]
    {
      if values[index] <= values[index - 1] {
        return false;
      }
    }
    return true;
  }

  ghost predicate Validated(c: Config) {
    && 1 <= c.apiRounds <= MAX_API_ROUNDS
    && MIN_DEADLINE_MS <= c.deadlineMs <= MAX_DEADLINE_MS
    && MIN_DWELL_MS <= c.dwellMs <= MAX_DWELL_MS
    && ValidRamp(c.apiRamp)
    && ValidRamp(c.realtimeRamp)
  }

  predicate RunsApi(c: Config) { c.scenario == Api || c.scenario == All }

  predicate RunsRealtime(c: Config) { c.scenario == Realtime || c.scenario == All }

  /** The bound of an open or a close, and that of a dwell. */
  function OperationMs(c: Config): int { c.deadlineMs + DEADLINE_SCHEDULING_TOLERANCE_MS }

  function RestMs(c: Config): int { c.dwellMs + DWELL_TOLERANCE_MS }

  lemma TakesTime(c: Config)
    requires Validated(c)
    ensures 0 <= c.deadlineMs && 0 <= OperationMs(c) && 0 <= RestMs(c)
  {
    hide ValidRamp;
  }

  /** The budget the source writes down, part by part. */
  function ApiBudgetMs(c: Config): int {
    |c.apiRamp| * (c.apiRounds * c.deadlineMs) + 2 * c.dwellMs + c.deadlineMs + c.apiRounds * c.deadlineMs
  }

  function RealtimeBudgetMs(c: Config): int {
    2 * c.deadlineMs + |c.realtimeRamp| * (c.deadlineMs + c.dwellMs)
    + 5 * c.deadlineMs + 4 * c.dwellMs + c.deadlineMs
  }

  function WorstCaseMs(c: Config): int {
    2 * c.deadlineMs
    + (if RunsApi(c) then ApiBudgetMs(c) else 0)
    + (if RunsRealtime(c) then RealtimeBudgetMs(c) else 0)
  }

  function CeilingOfThousandth(ms: int): int { (ms + 999) / 1_000 }

  function RequiredTokenValiditySeconds(c: Config): int {
    var seconds := CeilingOfThousandth(WorstCaseMs(c)) + TOKEN_EXPIRY_BUFFER_SECONDS;
    if seconds < MIN_TOKEN_VALIDITY_SECONDS then MIN_TOKEN_VALIDITY_SECONDS else seconds
  }

  /** The validity asked for is the least whole number of seconds that is at least ten
      minutes and leaves two minutes after the worst case. */
  lemma LeastValidity(c: Config, seconds: int)
    ensures RequiredTokenValiditySeconds(c) <= seconds <==>
            600 <= seconds && WorstCaseMs(c) <= 1_000 * (seconds - 120)
  {
    hide WorstCaseMs;
  }

  /** Both ramps at their longest, with the most rounds and the longest times. */
  ghost predicate Longest(c: Config) {
    && c.scenario == All && |c.apiRamp| == 12 && |c.realtimeRamp| == 12
    && c.apiRounds == 10 && c.deadlineMs == 60_000 && c.dwellMs == 30_000
  }

  /** No run asks for less than ten minutes or for more than 9840 seconds, and the
      longest one asks for just that. */
  lemma ValidityRange(c: Config)
    requires Validated(c)
    ensures 600 <= RequiredTokenValiditySeconds(c) <= 9_840
    ensures Longest(c) ==> RequiredTokenValiditySeconds(c) == 9_840
  {
    var wave := c.apiRounds * c.deadlineMs;
    Within(c.apiRounds, 10, c.deadlineMs, 60_000);
    Within(|c.apiRamp|, 12, wave, 600_000);
    Within(|c.realtimeRamp|, 12, c.deadlineMs + c.dwellMs, 90_000);
    LeastValidity(c, 9_840);
    if Longest(c) {
      assert WorstCaseMs(c) == 9_720_000;
      LeastValidity(c, 9_839);
    }
  }

  lemma Within(a: int, m: int, b: int, n: int)
    requires 0 <= a <= m && 0 <= b <= n
    ensures 0 <= a * b <= m * n
  {
    assert a * b <= a * n <= m * n;
  }

  /** What the budget does not count: the slack of each dwell, open and close. */
  function ApiToleranceMs(c: Config): int { 2 * DWELL_TOLERANCE_MS }

  function RealtimeToleranceMs(c: Config): int {
    2 * DEADLINE_SCHEDULING_TOLERANCE_MS
    + |c.realtimeRamp| * (DEADLINE_SCHEDULING_TOLERANCE_MS + DWELL_TOLERANCE_MS)
    + 5 * DEADLINE_SCHEDULING_TOLERANCE_MS + 4 * DWELL_TOLERANCE_MS
    + DEADLINE_SCHEDULING_TOLERANCE_MS
  }

  function ToleranceMs(c: Config): int {
    (if RunsApi(c) then ApiToleranceMs(c) else 0)
    + (if RunsRealtime(c) then RealtimeToleranceMs(c) else 0)
  }

  /** The uncounted slack is at most twenty seconds, and exactly that for twelve
      levels of both kinds, so a hundred of the buffer's seconds remain. */
  lemma ToleranceFitsBuffer(c: Config, spentMs: int)
    requires Validated(c) && spentMs <= WorstCaseMs(c) + ToleranceMs(c)
    ensures ToleranceMs(c) <= 20_000
    ensures ToleranceMs(c) == 20_000 <==> c.scenario == All && |c.realtimeRamp| == 12
    ensures spentMs + 100_000 <= 1_000 * RequiredTokenValiditySeconds(c)
  {
    assert WorstCaseMs(c) <= 1_000 * CeilingOfThousandth(WorstCaseMs(c)) by {
      hide WorstCaseMs;
    }
    hide WorstCaseMs;
    hide CeilingOfThousandth;
  }
}
