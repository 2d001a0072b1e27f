/** The few java.lang.String and java.util.stream behaviours the controller
    depends on, written out: `trim()`, `Collectors.joining(sep)`,
    `replaceAll("[^\\d.]", "")` and `Integer.valueOf` on what that leaves. */
module JavaText {
  import opened Wrappers

  /** `trim()` removes every leading and trailing character whose code is at
      most that of the space character. */
  predicate IsTrimmable(c: char) {
    c <= ' '
  }

  /** Number of trimmable characters at the start of `s`. */
  function LeadingTrimmable(s: string): (k: nat)
    ensures k <= |s|
    ensures forall i :: 0 <= i < k ==> IsTrimmable(s[i])
    ensures k < |s| ==> !IsTrimmable(s[k])
    decreases |s|
  {
    if |s| > 0 && IsTrimmable(s[0]) then 1 + LeadingTrimmable(s[1..]) else 0
  }

  /** Number of trimmable characters at the end of `s`. */
  function TrailingTrimmable(s: string): (k: nat)
    ensures k <= |s|
    ensures forall i :: |s| - k <= i < |s| ==> IsTrimmable(s[i])
    ensures k < |s| ==> !IsTrimmable(s[|s| - 1 - k])
    decreases |s|
  {
    if |s| > 0 && IsTrimmable(s[|s| - 1]) then 1 + TrailingTrimmable(s[..|s| - 1]) else 0
  }

  /** `String.trim()`: the slice of `s` between its leading and its trailing
      trimmable characters. */
  function Trim(s: string): (r: string)
    ensures |r| <= |s|
    ensures r == [] || (!IsTrimmable(r[0]) && !IsTrimmable(r[|r| - 1]))
    ensures LeadingTrimmable(s) + |r| <= |s| && r == s[LeadingTrimmable(s)..LeadingTrimmable(s) + |r|]
    ensures forall i :: LeadingTrimmable(s) + |r| <= i < |s| ==> IsTrimmable(s[i])
  {
    var start := LeadingTrimmable(s);
    var rest := s[start..];
    var r := rest[..|rest| - TrailingTrimmable(rest)];
    assert r == s[start..start + |r|];
    assert forall i :: start + |r| <= i < |s| ==> s[i] == rest[i - start];
    r
  }

  /** `s.trim().isEmpty()`. */
  predicate IsBlank(s: string) {
    |Trim(s)| == 0
  }

  /** A string is blank exactly when every one of its characters is trimmable. */
  lemma {:induction false} BlankIffAllTrimmable(s: string)
    ensures IsBlank(s) <==> forall i :: 0 <= i < |s| ==> IsTrimmable(s[i])
  {
    var start := LeadingTrimmable(s);
    var rest := s[start..];
    var tail := TrailingTrimmable(rest);
    if forall i :: 0 <= i < |s| ==> IsTrimmable(s[i]) {
      assert start == |s|;
    } else {
      var j :| 0 <= j < |s| && !IsTrimmable(s[j]);
      assert start <= j;
      assert !IsTrimmable(rest[0]);
      assert tail < |rest|;
    }
  }

  /** `Collectors.joining(sep)` over `parts`. */
  function Join(parts: seq<string>, sep: string): string
    decreases |parts|
  {
    if |parts| == 0 then ""
    else if |parts| == 1 then parts[0]
    else Join(parts[..|parts| - 1], sep) + sep + parts[|parts| - 1]
  }

  predicate IsDigit(c: char) {
    '0' <= c <= '9'
  }

  /** Characters the pattern `[^\d.]` does not match, so that
      `replaceAll("[^\\d.]", "")` keeps them. */
  predicate IsKept(c: char) {
    IsDigit(c) || c == '.'
  }

  /** `s.replaceAll("[^\\d.]", "")`: the digits and dots of `s`, in order. */
  function KeepDigitsAndDots(s: string): (r: string)
    ensures |r| <= |s|
    ensures forall i :: 0 <= i < |r| ==> IsKept(r[i])
    ensures (forall i :: 0 <= i < |s| ==> !IsKept(s[i])) ==> r == []
    ensures forall c :: c in r <==> c in s && IsKept(c)
    decreases |s|
  {
    if s == [] then []
    else
      var rest := KeepDigitsAndDots(s[1..]);
      assert forall c :: c in s <==> c == s[0] || c in s[1..];
      (if IsKept(s[0]) then [s[0]] else []) + rest
  }

  /** A single character is kept exactly when it is a digit or a dot. */
  lemma KeepDigitsAndDotsSingleton(c: char)
    ensures KeepDigitsAndDots([c]) == if IsKept(c) then [c] else []
  {
    assert [c][1..] == [];
  }

  /** Filtering distributes over concatenation. */
  lemma {:induction false} KeepDigitsAndDotsAppend(s: string, t: string)
    ensures KeepDigitsAndDots(s + t) == KeepDigitsAndDots(s) + KeepDigitsAndDots(t)
    decreases |s|
  {
    if s != [] {
      var head := if IsKept(s[0]) then [s[0]] else [];
      assert (s + t)[0] == s[0] && (s + t)[1..] == s[1..] + t;
      KeepDigitsAndDotsAppend(s[1..], t);
      calc {
        KeepDigitsAndDots(s + t);
        head + KeepDigitsAndDots(s[1..] + t);
        head + (KeepDigitsAndDots(s[1..]) + KeepDigitsAndDots(t));
        (head + KeepDigitsAndDots(s[1..])) + KeepDigitsAndDots(t);
      }
    } else {
      assert s + t == t;
    }
  }

  /** The value of a string of decimal digits, most significant first. */
  function DecimalValue(s: string): (v: nat)
    requires forall i :: 0 <= i < |s| ==> IsDigit(s[i])
    decreases |s|
  {
    if s == [] then 0
    else
      assert IsDigit(s[|s| - 1]);
      DecimalValue(s[..|s| - 1]) * 10 + (s[|s| - 1] as int - '0' as int)
  }

  /** The largest Java `int`. */
  const IntMax: int := 0x7fff_ffff

  /** `Integer.valueOf(s)` on a string that holds only digits and dots: it
      fails (NumberFormatException) on the empty string, on any dot and on a
      value that does not fit in an `int`. */
  function IntegerValueOf(s: string): (r: Result<int, string>)
    requires forall i :: 0 <= i < |s| ==> IsKept(s[i])
    ensures r.Success? <==>
              s != [] && (forall i :: 0 <= i < |s| ==> IsDigit(s[i])) && DecimalValue(s) <= IntMax
    ensures r.Success? ==> 0 <= r.value <= IntMax && r.value == DecimalValue(s)
    ensures r.Failure? ==> r.error == s
  {
    if s == [] || exists i :: 0 <= i < |s| && !IsDigit(s[i]) then Failure(s)
    else if DecimalValue(s) > IntMax then Failure(s)
    else Success(DecimalValue(s))
  }
}
