/** Token estimates and the integer arithmetic that decides when a transcript is compacted. */
module Budgets {
  import opened Messages

  const DEFAULT_RESERVE_TOKENS := 16384
  const DEFAULT_KEEP_RECENT_TOKENS := 20000
  const MAX_SUMMARY_TOKENS := 16384
  const OUTPUT_TOKEN_MAX := 32768
  const MIN_OUTPUT_TOKENS := 1024
  const INPUT_FLOOR_TOKENS := 4096
  const OUTPUT_SAFETY_MARGIN_TOKENS := 2048

  datatype Settings = Settings(reserveTokens: int, keepRecentTokens: int)
  datatype WindowLimits = WindowLimits(context: int, inputLimit: int)

  /** Integer division that truncates toward zero. */
  function Quot(a: int, b: int): int
    requires b > 0
  {
    if a >= 0 then a / b else -(-a / b)
  }

  function EstimateTokens(text: string): (n: nat)
    ensures 4 * n >= |text| > 4 * n - 4 || n == |text| == 0
  {
    if |text| == 0 then 0 else (|text| + 3) / 4
  }

  function MessagesTokens(ms: seq<RawMessage>): nat {
    if ms == [] then 0 else MessagesTokens(ms[..|ms| - 1]) + EstimateTokens(ms[|ms| - 1].content) + 4
  }

  method EstimateMessagesTokens(ms: seq<RawMessage>) returns (total: nat)
    ensures total == MessagesTokens(ms)
  {
    total := 0;
    for i := 0 to |ms|
      invariant total == MessagesTokens(ms[..i])
    {
      assert ms[..i + 1][..i] == ms[..i];
      total := total + EstimateTokens(ms[i].content) + 4;
    }
    assert ms[..|ms|] == ms;
  }

  /** The cap leaves 4096 tokens of a window free, as far as it may lie between 1024 and 32768. */
  function OutputCapForWindow(window: int): (c: int)
    ensures 1024 <= c <= 32768
    ensures window <= 0 ==> c == 32768
    ensures window > 0 && c > 1024 ==> c + 4096 <= window
    ensures window > 0 && c < 32768 ==> c + 4096 >= window
  {
    if window <= 0 then OUTPUT_TOKEN_MAX else
    var c := if window - INPUT_FLOOR_TOKENS < OUTPUT_TOKEN_MAX then window - INPUT_FLOOR_TOKENS else OUTPUT_TOKEN_MAX;
    if c < MIN_OUTPUT_TOKENS then MIN_OUTPUT_TOKENS else c
  }

  /** The limit that is sent: the most that fits behind the prompt with a margin of 2048, up to the cap, but at least
      1024. */
  function ClampOutputTokens(promptTokens: int, window: int): (r: int)
    ensures 1024 <= r <= OutputCapForWindow(window)
    ensures window <= 0 ==> r == 32768
    ensures window > 0 && r > 1024 ==> promptTokens + r + 2048 <= window
    ensures window > 0 && r < OutputCapForWindow(window) ==> promptTokens + r + 2048 >= window
  {
    var c := OutputCapForWindow(window);
    if window <= 0 then c else
    var room := window - promptTokens - OUTPUT_SAFETY_MARGIN_TOKENS;
    if room < MIN_OUTPUT_TOKENS then MIN_OUTPUT_TOKENS else if room < c then room else c
  }

  predicate FitsContext(promptTokens: int, outputCap: int, window: int) {
    window <= 0 || promptTokens + outputCap <= window
  }

  function ResolveKeepRecent(s: Settings): (k: int)
    ensures k > 0 && (k == s.keepRecentTokens || (k == 20000 && s.keepRecentTokens <= 0))
  {
    if s.keepRecentTokens > 0 then s.keepRecentTokens else DEFAULT_KEEP_RECENT_TOKENS
  }

  function ResolveReserve(reserveTokens: int): int {
    if reserveTokens > 0 then reserveTokens else DEFAULT_RESERVE_TOKENS
  }

  /** The reserve that the settings ask for, before it is compared with the window. */
  function WantedReserve(context: int, reserveTokens: int, outputCap: int): int {
    var proportional := Quot(context * 15, 100);
    var reserve := ResolveReserve(reserveTokens);
    var raised := if proportional > reserve then proportional else reserve;
    if outputCap + OUTPUT_SAFETY_MARGIN_TOKENS > raised then outputCap + OUTPUT_SAFETY_MARGIN_TOKENS else raised
  }

  function EffectiveReserve(context: int, reserveTokens: int, outputCap: int): int {
    var proportional := Quot(context * 15, 100);
    var reserve := WantedReserve(context, reserveTokens, outputCap);
    if reserve >= context then (if proportional < 1 then 1 else proportional) else reserve
  }

  /** The smaller of the limits that are set. */
  function BaseWindow(limits: WindowLimits): (b: int)
    ensures b == limits.context || b == limits.inputLimit > 0
    ensures limits.context > 0 ==> 0 < b <= limits.context
    ensures limits.inputLimit > 0 ==> 0 < b <= limits.inputLimit
  {
    if limits.inputLimit > 0 && (limits.context <= 0 || limits.inputLimit < limits.context)
    then limits.inputLimit else limits.context
  }

  function ThresholdTokens(limits: WindowLimits, s: Settings): int {
    var base := BaseWindow(limits);
    var threshold := base - EffectiveReserve(limits.context, s.reserveTokens, OutputCapForWindow(base));
    var floored := if threshold < 1 then 1 else threshold;
    if limits.context > 0 && floored > limits.context - 1 then limits.context - 1 else floored
  }

  predicate ShouldCompact(tokens: int, limits: WindowLimits, s: Settings) {
    limits.context > 0 && tokens > ThresholdTokens(limits, s)
  }

  /** Eight tenths of the reserve, as far as that lies between 1 and 16384. */
  function TargetTokens(reserveTokens: int): (t: int)
    ensures 1 <= t <= 16384
    ensures t > 1 ==> 10 * t <= 8 * reserveTokens
    ensures t < 16384 ==> 8 * reserveTokens < 10 * t + 10
  {
    var target := Quot(reserveTokens * 8, 10);
    if target > MAX_SUMMARY_TOKENS then MAX_SUMMARY_TOKENS else if target < 1 then 1 else target
  }

  // ---- Properties ----

  /** A window that could ever be used puts the threshold strictly inside it. */
  lemma {:induction false} ThresholdInWindow(limits: WindowLimits, s: Settings)
    requires limits.context >= 2
    ensures 1 <= ThresholdTokens(limits, s) <= limits.context - 1
  {
  }

  /** The smaller of the context and the input limit, as far as these are set. */
  predicate IsBase(limits: WindowLimits, base: int) {
    && (base == limits.context || base == limits.inputLimit)
    && base <= limits.context && (limits.inputLimit > 0 ==> 0 < base <= limits.inputLimit)
    && (limits.inputLimit <= 0 ==> base == limits.context)
  }

  /** The largest of what was set for the reserve (or 16384), of 15 percent of the context, and of the output cap with a
      margin of 2048. */
  predicate IsWanted(limits: WindowLimits, s: Settings, base: int, wanted: int) {
    var asked := if s.reserveTokens > 0 then s.reserveTokens else 16384;
    var share := limits.context * 15 / 100;
    var floor := OutputCapForWindow(base) + 2048;
    wanted >= asked && wanted >= share && wanted >= floor && (wanted == asked || wanted == share || wanted == floor)
  }

  /** The reserve in full: what is wanted, if that fits the context, and otherwise the 15 percent alone. */
  lemma {:induction false} ReserveIs(limits: WindowLimits, s: Settings, base: int, wanted: int)
    requires IsWanted(limits, s, base, wanted)
    ensures var share := limits.context * 15 / 100;
      EffectiveReserve(limits.context, s.reserveTokens, OutputCapForWindow(base)) ==
        if wanted < limits.context then wanted else if share < 1 then 1 else share
  {
  }

  /** The threshold in full: the base window less the reserve, but strictly inside the window. */
  lemma {:induction false} ThresholdIs(limits: WindowLimits, s: Settings, base: int, wanted: int)
    requires limits.context >= 2 && IsBase(limits, base) && IsWanted(limits, s, base, wanted)
    ensures var share := limits.context * 15 / 100;
      var room := base - if wanted < limits.context then wanted else if share < 1 then 1 else share;
      ThresholdTokens(limits, s) ==
        if room < 1 then 1 else if room > limits.context - 1 then limits.context - 1 else room
    ensures forall tokens :: ShouldCompact(tokens, limits, s) <==> tokens > ThresholdTokens(limits, s)
  {
    hide IsWanted, EffectiveReserve;
    ReserveIs(limits, s, base, wanted);
  }

  /** Every prompt that does not trigger a compaction leaves room in the window for a full answer and a margin of
      2048. */
  ghost predicate ThresholdLeavesRoom(limits: WindowLimits, s: Settings, base: int) {
    forall prompt: int :: !ShouldCompact(prompt, limits, s) ==>
      FitsContext(prompt + 2048, OutputCapForWindow(base), base)
  }

  /** The exact configurations for which that promise holds: a base window of at least 3073 tokens, and either a reserve
      that fits the context or a context so large that its 15 percent already cover the answer and the margin. */
  lemma {:induction false} ThresholdLeavesRoomIff(limits: WindowLimits, s: Settings, base: int)
    requires limits.context >= 2 && IsBase(limits, base)
    ensures var floor := OutputCapForWindow(base) + 2048;
      ThresholdLeavesRoom(limits, s, base) <==>
      && base >= 3073
      && (|| (floor < limits.context && (if s.reserveTokens > 0 then s.reserveTokens else 16384) < limits.context)
          || limits.context * 15 / 100 >= floor)
  {
    var t := ThresholdTokens(limits, s);
    var cap := OutputCapForWindow(base);
    assert BaseWindow(limits) == base;
    assert !ShouldCompact(t, limits, s);
    assert FitsContext(t + 2048, cap, base) ==> ThresholdLeavesRoom(limits, s, base);
  }

  /** Below the threshold the output limit that is sent is the full cap. */
  lemma {:induction false} NoClampBelowThreshold(limits: WindowLimits, s: Settings, base: int, prompt: int)
    requires limits.context >= 2 && IsBase(limits, base) && ThresholdLeavesRoom(limits, s, base)
    requires !ShouldCompact(prompt, limits, s)
    ensures ClampOutputTokens(prompt, base) == OutputCapForWindow(base)
  {
    assert FitsContext(prompt + 2048, OutputCapForWindow(base), base);
  }

  /** The estimate of a list is that of its parts, and of one message a quarter of its bytes, rounded up, and four. */
  lemma {:induction false} EstimateOfParts(a: seq<RawMessage>, b: seq<RawMessage>, m: RawMessage)
    ensures MessagesTokens([]) == 0
    ensures MessagesTokens(a + b) == MessagesTokens(a) + MessagesTokens(b)
    ensures var tokens := MessagesTokens([m]) - 4; 4 * tokens - 4 < |m.content| <= 4 * tokens
  {
    assert [m][..0] == [];
    EstimateConcat(a, b);
  }

  lemma {:induction false} EstimateConcat(a: seq<RawMessage>, b: seq<RawMessage>)
    ensures MessagesTokens(a + b) == MessagesTokens(a) + MessagesTokens(b)
  {
    hide EstimateTokens;
    if b == [] {
      assert a + b == a;
    } else {
      assert (a + b)[..|a + b| - 1] == a + b[..|b| - 1];
      EstimateConcat(a, b[..|b| - 1]);
    }
  }
}
