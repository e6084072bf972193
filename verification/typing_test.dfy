/** The typing test's state machine: the input-change reducer moving a
    test from idle to typing to finished, the statistics it recomputes on
    every keystroke, and the reset that loads a new text. Clock readings
    are parameters. */
module TypingTest {
  import opened Wrappers
  import opened Text

  datatype Status = Idle | Typing | Finished

  /** Position of a status along idle, typing, finished. */
  function Stage(s: Status): nat
  {
    match s
    case Idle => 0
    case Typing => 1
    case Finished => 2
  }

  /** Start and end timestamps in milliseconds; `None` is `null`. */
  datatype Timing = Timing(start: Option<int>, end: Option<int>)

  datatype Stats = Stats(wpm: int, accuracy: int)

  datatype TestState = TestState(
    text: string,
    input: string,
    timing: Timing,
    status: Status,
    stats: Stats,
    currentIndex: int,
    isFocused: bool,
    showFocusMessage: bool)

  /** JavaScript truthiness of a `number | null`: `null` and 0 are falsy. */
  predicate Truthy(t: Option<int>)
  {
    t.Some? && t.value != 0
  }

  /** `a || b` over `number | null`. */
  function OrElse(a: Option<int>, b: Option<int>): Option<int>
  {
    if Truthy(a) then a else b
  }

  /** Positions `i < |input|` where the typed character equals the text's;
      a position past the end of the text never matches. */
  function Matches(input: string, text: string): (n: nat)
    ensures n <= |input|
  {
    if |input| == 0 then 0
    else
      var i := |input| - 1;
      Matches(input[..i], text) + (if i < |text| && input[i] == text[i] then 1 else 0)
  }

  /** The counting loop of the statistics: the number of matching positions. */
  method CountCorrect(input: string, text: string) returns (correct: nat)
    ensures correct == Matches(input, text)
    ensures correct <= |input|
  {
    correct := 0;
    var i := 0;
    while i < |input|
      invariant 0 <= i <= |input|
      invariant correct == Matches(input[..i], text)
    {
      assert input[..i + 1][..i] == input[..i];
      if i < |text| && input[i] == text[i] {
        correct := correct + 1;
      }
      i := i + 1;
    }
    assert input[..|input|] == input;
  }

  /** Every typed character is correct exactly when the input is a prefix
      of the text. */
  lemma {:induction false} MatchesAllIffPrefix(input: string, text: string)
    requires |input| <= |text|
    ensures Matches(input, text) == |input| <==> input == text[..|input|]
  {
    if |input| > 0 {
      var i := |input| - 1;
      var typed := input[..i];
      MatchesAllIffPrefix(typed, text);
      assert Matches(input, text) == Matches(typed, text) + (if input[i] == text[i] then 1 else 0);
      if input == text[..|input|] {
        assert typed == text[..i];
        assert input[i] == text[i];
      }
      if Matches(input, text) == |input| {
        assert typed == text[..i] && input[i] == text[i];
        forall k | 0 <= k < |input|
          ensures input[k] == text[k]
        {
          if k < i {
            assert input[k] == typed[k];
          }
        }
        assert input == text[..|input|];
      }
    }
  }

  /** `Math.round(a / b)` for a non-negative ratio: the nearest integer,
      halves rounded up. */
  function RoundRatio(a: nat, b: nat): (r: nat)
    requires b > 0
    ensures 2 * b * r <= 2 * a + b < 2 * b * r + 2 * b
  {
    (2 * a + b) / (2 * b)
  }

  /** `calculateStats`: no statistics without a (truthy) start time or
      before any time has passed; otherwise words per minute (five
      characters a word) and the percentage of correctly typed
      characters, each rounded to the nearest integer, accuracy 100 for
      an empty input. */
  function CalculateStats(input: string, text: string, start: Option<int>, now: int): (s: Stats)
    ensures !Truthy(start) || now <= start.value ==> s == Stats(0, 0)
    ensures 0 <= s.wpm && 0 <= s.accuracy <= 100
    ensures Truthy(start) && now > start.value ==>
              && (|input| == 0 ==> s.accuracy == 100)
              && (|input| > 0 ==> 2 * |input| * s.accuracy <= 200 * Matches(input, text) + |input| < 2 * |input| * s.accuracy + 2 * |input|)
              && 2 * (now - start.value) * s.wpm <= 24000 * |input| + (now - start.value) < 2 * (now - start.value) * (s.wpm + 1)
  {
    if !Truthy(start) then Stats(0, 0)
    else
      var elapsed := now - start.value;
      if elapsed <= 0 then Stats(0, 0)
      else
        var wpm := RoundRatio(12000 * |input|, elapsed);
        var accuracy := if |input| > 0 then RoundRatio(100 * Matches(input, text), |input|) else 100;
        AccuracyBound(Matches(input, text), |input|);
        Stats(wpm, accuracy)
  }

  lemma AccuracyBound(correct: nat, typed: nat)
    requires correct <= typed
    ensures typed > 0 ==> RoundRatio(100 * correct, typed) <= 100
  {
    if typed > 0 {
      var r := RoundRatio(100 * correct, typed);
      if r > 100 {
        MulMonotone(101, r, 2 * typed);
        assert false;
      }
    }
  }

  lemma MulMonotone(a: nat, b: nat, c: nat)
    requires a <= b
    ensures c * a <= c * b
  {
  }

  /** `handleInputChange`: the state after the input field changes to
      `value`, with `now` the clock reading. */
  function HandleInput(prev: TestState, value: string, now: int): (next: TestState)
    ensures prev.status == Finished || |value| > |prev.text| ==> next == prev
    ensures prev.status != Finished && |value| <= |prev.text| ==>
              && next.input == value
              && next.currentIndex == |value| <= |next.text|
              && next.text == prev.text
              && next.isFocused == prev.isFocused
              && next.showFocusMessage == prev.showFocusMessage
              && next.timing.start ==
                   (if prev.status == Idle && |value| == 1 then Some(now) else prev.timing.start)
              && next.timing.end ==
                   (if prev.status == Typing && |value| == |prev.text| then Some(now) else prev.timing.end)
              && next.stats ==
                   CalculateStats(value, prev.text, OrElse(next.timing.start, prev.timing.start), now)
    ensures Stage(prev.status) <= Stage(next.status)
    ensures prev.status != Finished ==>
              (next.status == Finished <==> prev.status == Typing && |value| == |prev.text|)
    ensures prev.status == Idle && |value| == 1 <= |prev.text| ==>
              next.status == Typing && next.timing.start == Some(now)
    ensures prev.status == Idle && |value| != 1 ==> next.status == Idle
  {
    if prev.status == Finished || |value| > |prev.text| then prev
    else
      var started := prev.status == Idle && |value| == 1;
      var finishing := prev.status == Typing && |value| == |prev.text|;
      var start := if started then Some(now) else prev.timing.start;
      var end := if finishing then Some(now) else prev.timing.end;
      var status := if finishing then Finished else if started then Typing else prev.status;
      var stats := CalculateStats(value, prev.text, OrElse(start, prev.timing.start), now);
      prev.(input := value, timing := Timing(start, end), status := status, stats := stats, currentIndex := |value|)
  }

  /** The state a test starts in before any text is loaded. */
  const Initial: TestState :=
    TestState("", "", Timing(None, None), Idle, Stats(0, 0), 0, false, false)

  /** `resetTest`: a fresh idle test over the fetched sentences joined by
      single spaces, focused and with nothing typed. */
  function Reset(sentences: seq<string>): (s: TestState)
    ensures s.text == Join(sentences, ' ')
    ensures s.input == "" && s.currentIndex == 0 && s.status == Idle
    ensures s.timing == Timing(None, None) && s.stats == Stats(0, 0)
    ensures s.isFocused && !s.showFocusMessage
  {
    TestState(Join(sentences, ' '), "", Timing(None, None), Idle, Stats(0, 0), 0, true, false)
  }

  /** What every reachable state satisfies: the cursor sits at the end of
      the input, which never outgrows the text; an idle test has no
      timings and no statistics; a running test has a start and no end;
      a finished one has both and a complete input; accuracy is a
      percentage. */
  predicate Consistent(s: TestState)
  {
    && s.currentIndex == |s.input| <= |s.text|
    && 0 <= s.stats.accuracy <= 100
    && 0 <= s.stats.wpm
    && (s.status == Idle ==> s.timing == Timing(None, None) && s.stats == Stats(0, 0))
    && (s.status == Typing ==> s.timing.start.Some? && s.timing.end.None?)
    && (s.status == Finished ==> s.timing.start.Some? && s.timing.end.Some? && |s.input| == |s.text|)
  }

  lemma InitialConsistent()
    ensures Consistent(Initial)
  {
  }

  lemma ResetConsistent(sentences: seq<string>)
    ensures Consistent(Reset(sentences))
  {
  }

  /** The reducer keeps a consistent state consistent. */
  lemma HandleInputConsistent(prev: TestState, value: string, now: int)
    requires Consistent(prev)
    ensures Consistent(HandleInput(prev, value, now))
  {
  }

  /** A one-character text cannot finish on its first keystroke: the test
      only starts typing. */
  lemma SingleCharacterTextNeverFinishesAtOnce(prev: TestState, value: string, now: int)
    requires prev.status == Idle && |prev.text| == 1 && |value| == 1
    ensures HandleInput(prev, value, now).status == Typing
  {
  }

  /** The state after typing the prefixes `t[..k+1]`, ..., `t[..|t|]` of
      `t` one keystroke at a time, keystroke `j` at clock reading `clock(j)`. */
  function TypePrefixes(s: TestState, t: string, k: nat, clock: nat -> int): TestState
    requires k <= |t|
    decreases |t| - k
  {
    if k == |t| then s else TypePrefixes(HandleInput(s, t[..k + 1], clock(k)), t, k + 1, clock)
  }

  /** A running test over `t` with `t[..k]` typed finishes once the rest
      of `t` is typed correctly, keeping its start time. */
  lemma {:induction false} TypingRestFinishes(s: TestState, t: string, k: nat, clock: nat -> int)
    requires 1 <= k < |t| && s.text == t && s.status == Typing && s.input == t[..k]
    ensures var f := TypePrefixes(s, t, k, clock);
            f.status == Finished && f.input == t && f.timing.start == s.timing.start
            && f.stats == CalculateStats(t, t, s.timing.start, clock(|t| - 1))
    decreases |t| - k
  {
    var next := HandleInput(s, t[..k + 1], clock(k));
    assert next.text == t && next.input == t[..k + 1];
    assert next.timing.start == s.timing.start;
    if k + 1 < |t| {
      assert next.status == Typing;
      TypingRestFinishes(next, t, k + 1, clock);
    } else {
      assert t[..k + 1] == t;
      assert next.stats == CalculateStats(t, t, s.timing.start, clock(k));
    }
  }

  /** Typing a freshly loaded text of two or more characters correctly,
      one character at a time, finishes the test; when the clock starts
      after zero and advances, accuracy is 100. */
  lemma TypingWholeTextFinishes(sentences: seq<string>, clock: nat -> int)
    requires |Join(sentences, ' ')| >= 2
    ensures var t := Join(sentences, ' ');
            var f := TypePrefixes(Reset(sentences), t, 0, clock);
            && f.status == Finished
            && f.input == t
            && (clock(0) != 0 && clock(|t| - 1) > clock(0) ==> f.stats.accuracy == 100)
  {
    var t := Join(sentences, ' ');
    var first := HandleInput(Reset(sentences), t[..1], clock(0));
    TypingRestFinishes(first, t, 1, clock);
    MatchesAllIffPrefix(t, t);
    assert t[..|t|] == t;
    if |t| > 0 {
      PerfectAccuracy(|t|);
    }
  }

  lemma PerfectAccuracy(typed: nat)
    requires typed > 0
    ensures RoundRatio(100 * typed, typed) == 100
  {
    var r := RoundRatio(100 * typed, typed);
    if r > 100 {
      MulMonotone(101, r, 2 * typed);
      assert false;
    } else if r < 100 {
      MulMonotone(r + 1, 100, 2 * typed);
      assert false;
    }
  }
}
