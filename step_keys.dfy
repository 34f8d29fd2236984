/** The string keys under which the goal-setting flow records selections:
    `"initial"` for the top-level dialogue and `"<flow>_<index>"` for a step of a
    flow, and the way the accumulator splits such a key back into its parts. */
module StepKeys {
  import opened Common

  const InitialKey: string := "initial"
  const SummaryKey: string := "summary"

  predicate IsDigit(c: char)
  {
    '0' <= c <= '9'
  }

  ghost predicate AllDigits(s: string)
  {
    forall i :: 0 <= i < |s| ==> IsDigit(s[i])
  }

  /** `${n}` for a non-negative integer index. */
  function Decimal(n: nat): (s: string)
    ensures |s| > 0 && AllDigits(s)
  {
    if n < 10 then [('0' as int + n) as char]
    else Decimal(n / 10) + [('0' as int + n % 10) as char]
  }

  /** The value of a string of decimal digits, most significant first. */
  function DigitsValue(s: string): nat
    requires AllDigits(s)
  {
    if s == [] then 0
    else DigitsValue(s[..|s| - 1]) * 10 + (s[|s| - 1] as int - '0' as int)
  }

  /** The longest prefix of `s` made of decimal digits. */
  function LeadingDigits(s: string): (r: string)
    ensures r <= s && AllDigits(r)
    ensures |r| < |s| ==> !IsDigit(s[|r|])
  {
    if s == [] || !IsDigit(s[0]) then []
    else [s[0]] + LeadingDigits(s[1..])
  }

  /** `parseInt(s)` for a string without leading blanks or sign: the value of its
      leading digits, or `None` for NaN when it does not start with a digit. */
  function ParseInt(s: string): Option<nat>
  {
    var d := LeadingDigits(s);
    if d == [] then None else Some(DigitsValue(d))
  }

  /** `${flow}_${index}`. */
  function StepKey(flow: string, index: nat): string
  {
    flow + "_" + Decimal(index)
  }

  /** `s.lastIndexOf(c)`. */
  function LastIndexOf(s: string, c: char): (r: int)
    ensures -1 <= r < |s|
    ensures r == -1 <==> c !in s
    ensures r >= 0 ==> s[r] == c && forall j :: r < j < |s| ==> s[j] != c
  {
    if s == [] then -1
    else if s[|s| - 1] == c then |s| - 1
    else
      var r := LastIndexOf(s[..|s| - 1], c);
      assert forall j :: 0 <= j < |s| - 1 ==> s[..|s| - 1][j] == s[j];
      r
  }

  /** `parts = key.split('_'); last = parts.pop(); flow = parts.join('_')`:
      everything before the last underscore, and everything after it. */
  function SplitKey(key: string): (string, string)
  {
    var p := LastIndexOf(key, '_');
    if p == -1 then ("", key) else (key[..p], key[p + 1..])
  }

  /** A step key read back as `(flowId, parseInt(stepIndex))`; `None` for NaN. */
  function ParseStepKey(key: string): Option<(string, nat)>
  {
    var (flow, last) := SplitKey(key);
    match ParseInt(last)
    case None => None
    case Some(n) => Some((flow, n))
  }

  lemma {:induction false} DecimalValue(n: nat)
    ensures DigitsValue(Decimal(n)) == n
  {
    if n >= 10 {
      DecimalValue(n / 10);
      var s := Decimal(n);
      assert s[..|s| - 1] == Decimal(n / 10);
    }
  }

  lemma {:induction false} LeadingDigitsOfDigits(s: string)
    requires AllDigits(s)
    ensures LeadingDigits(s) == s
  {
    if s != [] {
      LeadingDigitsOfDigits(s[1..]);
    }
  }

  /** Splitting a synthesized key at its last underscore gives back the flow id and
      the index, even when the flow id itself contains underscores. */
  lemma StepKeyRoundTrip(flow: string, index: nat)
    ensures ParseStepKey(StepKey(flow, index)) == Some((flow, index))
  {
    var key := StepKey(flow, index);
    var digits := Decimal(index);
    assert key[|flow|] == '_';
    forall j | |flow| < j < |key|
      ensures key[j] != '_'
    {
      assert key[j] == digits[j - |flow| - 1];
    }
    assert LastIndexOf(key, '_') == |flow|;
    assert key[..|flow|] == flow;
    assert key[|flow| + 1..] == digits;
    LeadingDigitsOfDigits(digits);
    DecimalValue(index);
  }

  /** Different steps never share a key, and no step key is a reserved key. */
  lemma StepKeyDistinct(flow: string, index: nat, flow': string, index': nat)
    ensures StepKey(flow, index) == StepKey(flow', index') <==> flow == flow' && index == index'
    ensures StepKey(flow, index) != InitialKey && StepKey(flow, index) != SummaryKey
  {
    StepKeyRoundTrip(flow, index);
    StepKeyRoundTrip(flow', index');
    var key := StepKey(flow, index);
    assert key[|flow|] == '_';
    assert '_' !in InitialKey && '_' !in SummaryKey;
  }
}
