/**
 * The evaluation-log scanner `parse_evaluation_results`: split a log into
 * lines, and keep the smallest `Refined_FDE` value together with the
 * `Refined_ADE` value of the same line, skipping `Epoch:` lines.
 *
 * The three regular expressions are modelled by what they match: the
 * leftmost occurrence of a literal key followed, for the two metrics, by
 * `\d+\.\d+` taken greedily (ASCII digits), and for the epoch by at least
 * one more character.  Parsed numbers are exact reals.
 */
module MinimumResult {
  import opened Wrappers

  // ------------------------------------------------------------ lines

  /** `text.split('\n')`: always at least one line, none containing a newline. */
  function SplitLines(text: string): (lines: seq<string>)
    ensures |lines| >= 1
    ensures forall k :: 0 <= k < |lines| ==> '\n' !in lines[k]
  {
    if |text| == 0 then [""]
    else
      var rest := SplitLines(text[1..]);
      if text[0] == '\n' then [""] + rest
      else [[text[0]] + rest[0]] + rest[1..]
  }

  /** `'\n'.join(lines)`. */
  function JoinLines(lines: seq<string>): string
    requires |lines| >= 1
  {
    if |lines| == 1 then lines[0] else lines[0] + "\n" + JoinLines(lines[1..])
  }

  /** Joining the split lines gives back the text. */
  lemma {:induction false} JoinSplit(text: string)
    ensures JoinLines(SplitLines(text)) == text
  {
    if |text| > 0 {
      var rest := SplitLines(text[1..]);
      JoinSplit(text[1..]);
      if text[0] == '\n' {
        assert [""] + rest == [""] + rest;
        assert ([""] + rest)[1..] == rest;
      } else {
        var lines := [[text[0]] + rest[0]] + rest[1..];
        if |rest| == 1 {
          assert JoinLines(rest) == rest[0];
        } else {
          assert lines[1..] == rest[1..];
          assert JoinLines(rest) == rest[0] + "\n" + JoinLines(rest[1..]);
        }
        assert text == [text[0]] + text[1..];
      }
    }
  }

  /** Splitting lines that hold no newline, once joined, gives back the lines. */
  lemma {:induction false} SplitJoin(lines: seq<string>)
    requires |lines| >= 1
    requires forall k :: 0 <= k < |lines| ==> '\n' !in lines[k]
    ensures SplitLines(JoinLines(lines)) == lines
    decreases |JoinLines(lines)|
  {
    var text := JoinLines(lines);
    if |lines| == 1 {
      SplitOneLine(lines[0]);
    } else {
      SplitWithNewline(lines[0], JoinLines(lines[1..]));
      SplitJoin(lines[1..]);
    }
  }

  /** A text without a newline is one line. */
  lemma {:induction false} SplitOneLine(line: string)
    requires '\n' !in line
    ensures SplitLines(line) == [line]
  {
    if |line| > 0 {
      assert '\n' !in line[1..] by {
        forall k | 0 <= k < |line[1..]|
          ensures line[1..][k] != '\n'
        {
          assert line[1..][k] == line[k + 1];
        }
      }
      SplitOneLine(line[1..]);
      assert [line[0]] + line[1..] == line;
    }
  }

  /** The text up to the first newline is the first line; the rest is split on its own. */
  lemma {:induction false} SplitWithNewline(line: string, rest: string)
    requires '\n' !in line
    ensures SplitLines(line + "\n" + rest) == [line] + SplitLines(rest)
  {
    var text := line + "\n" + rest;
    if |line| == 0 {
      assert text == "\n" + rest;
      assert text[1..] == rest;
    } else {
      assert text[1..] == line[1..] + "\n" + rest;
      assert '\n' !in line[1..] by {
        forall k | 0 <= k < |line[1..]|
          ensures line[1..][k] != '\n'
        {
          assert line[1..][k] == line[k + 1];
        }
      }
      SplitWithNewline(line[1..], rest);
      assert [line[0]] + line[1..] == line;
    }
  }

  // ---------------------------------------------------------- matching

  const EpochKey: string := "Epoch: "
  const AdeKey: string := "Refined_ADE: "
  const FdeKey: string := "Refined_FDE: "

  predicate IsDigit(c: char)
  {
    '0' <= c <= '9'
  }

  /** Every character of `s[i..j]` is a digit. */
  predicate DigitsIn(s: string, i: nat, j: nat)
    requires i <= j <= |s|
  {
    forall k :: i <= k < j ==> IsDigit(s[k])
  }

  /** The end of the longest run of digits that starts at `i`. */
  function DigitsEnd(s: string, i: nat): (j: nat)
    requires i <= |s|
    ensures i <= j <= |s| && DigitsIn(s, i, j)
    ensures j < |s| ==> !IsDigit(s[j])
    decreases |s| - i
  {
    if i < |s| && IsDigit(s[i]) then DigitsEnd(s, i + 1) else i
  }

  /** A matched `\d+\.\d+`: the digits before and after the point. */
  datatype Decimal = Decimal(whole: string, fraction: string)

  /** `\d+\.\d+` matches at `i`: digits up to a point, and a digit after it. */
  predicate NumberMatches(s: string, i: nat)
  {
    exists a: nat ::
      && i < a && a + 1 < |s|
      && DigitsIn(s, i, a) && s[a] == '.' && IsDigit(s[a + 1])
  }

  /** The match of `\d+\.\d+` at `i`, if any, taken greedily. */
  function NumberAt(s: string, i: nat): (r: Option<Decimal>)
    requires i <= |s|
  {
    var a := DigitsEnd(s, i);
    if a == i || a + 1 >= |s| || s[a] != '.' || !IsDigit(s[a + 1]) then None
    else Some(Decimal(s[i..a], s[a + 1..DigitsEnd(s, a + 1)]))
  }

  /**
   * `\d+\.\d+` matches at `i` exactly when digits, a point and a digit
   * follow, and the match is digits, a point and every digit after it.
   */
  lemma NumberAtMatches(s: string, i: nat)
    requires i <= |s|
    ensures NumberAt(s, i).Some? <==> NumberMatches(s, i)
    ensures NumberAt(s, i).Some? ==>
      var r := NumberAt(s, i).value;
      var a := i + |r.whole|;
      var b := a + 1 + |r.fraction|;
      && i < a < b <= |s|
      && r.whole == s[i..a] && s[a] == '.' && r.fraction == s[a + 1..b]
      && DigitsIn(s, i, a) && DigitsIn(s, a + 1, b)
      && (b < |s| ==> !IsDigit(s[b]))
  {
    var a := DigitsEnd(s, i);
    if NumberMatches(s, i) {
      var a': nat :| i < a' && a' + 1 < |s| && DigitsIn(s, i, a') && s[a'] == '.' && IsDigit(s[a' + 1]);
      assert a' == a;
    }
  }

  /** The literal `key` occurs at `i`. */
  predicate KeyAt(s: string, key: string, i: nat)
  {
    i + |key| <= |s| && s[i..i + |key|] == key
  }

  /** `key` followed by `\d+\.\d+` matches at `i`. */
  predicate Hit(s: string, key: string, i: nat)
  {
    KeyAt(s, key, i) && NumberMatches(s, i + |key|)
  }

  /** Where `re.search(key + r'(\d+\.\d+)', s)` matches, looking from position `i` on. */
  function HitFrom(s: string, key: string, i: nat): Option<nat>
    requires i <= |s|
    decreases |s| - i
  {
    if KeyAt(s, key, i) && NumberAt(s, i + |key|).Some? then Some(i)
    else if i == |s| then None
    else HitFrom(s, key, i + 1)
  }

  /**
   * The search stops at the leftmost position where the key is followed by a
   * number; it finds nothing exactly when there is no such position.
   */
  lemma HitIsLeftmost(s: string, key: string, i: nat)
    requires i <= |s|
    ensures HitFrom(s, key, i).None? <==> forall j :: i <= j <= |s| ==> !Hit(s, key, j)
    ensures HitFrom(s, key, i).Some? ==>
      var p := HitFrom(s, key, i).value;
      && i <= p <= |s| && Hit(s, key, p)
      && forall l :: i <= l < p ==> !Hit(s, key, l)
  {
    HitNoneIff(s, key, i);
    HitSomeLeftmost(s, key, i);
  }

  /** The search finds nothing exactly when no position from `i` on matches. */
  lemma {:induction false} HitNoneIff(s: string, key: string, i: nat)
    requires i <= |s|
    ensures HitFrom(s, key, i).None? <==> forall j :: i <= j <= |s| ==> !Hit(s, key, j)
    decreases |s| - i
  {
    HitFromStep(s, key, i);
    if !Hit(s, key, i) && i < |s| {
      HitNoneIff(s, key, i + 1);
      forall j | i <= j <= |s| && Hit(s, key, j)
        ensures i + 1 <= j
      {
      }
    } else if !Hit(s, key, i) {
      forall j | i <= j <= |s|
        ensures !Hit(s, key, j)
      {
        assert j == i;
      }
    }
  }

  /** What the search finds is a match, and no position before it matches. */
  lemma {:induction false} HitSomeLeftmost(s: string, key: string, i: nat)
    requires i <= |s|
    ensures HitFrom(s, key, i).Some? ==>
      var p := HitFrom(s, key, i).value;
      && i <= p <= |s| && Hit(s, key, p)
      && forall l :: i <= l < p ==> !Hit(s, key, l)
    decreases |s| - i
  {
    HitFromStep(s, key, i);
    if !Hit(s, key, i) && i < |s| {
      HitSomeLeftmost(s, key, i + 1);
    }
  }

  /** One position of the search: a match there, or move on. */
  lemma HitFromStep(s: string, key: string, i: nat)
    requires i <= |s|
    ensures Hit(s, key, i) ==> HitFrom(s, key, i) == Some(i)
    ensures !Hit(s, key, i) && i == |s| ==> HitFrom(s, key, i).None?
    ensures !Hit(s, key, i) && i < |s| ==> HitFrom(s, key, i) == HitFrom(s, key, i + 1)
  {
    if i + |key| <= |s| {
      NumberAtMatches(s, i + |key|);
    }
  }

  /** `re.search(key + r'(\d+\.\d+)', s)`: the number after the leftmost match. */
  function Search(s: string, key: string): Option<Decimal>
  {
    var p := HitFrom(s, key, 0);
    if p.None? then None
    else if p.value + |key| <= |s| then NumberAt(s, p.value + |key|)
    else None
  }

  /** A line with no decimal point holds no `\d+\.\d+` value, so `Refined_FDE: 3` is not a match. */
  lemma NoPointNoMatch(s: string, key: string)
    requires '.' !in s
    ensures Search(s, key).None?
  {
    HitIsLeftmost(s, key, 0);
  }

  /** `Epoch: (.+)` matches at `i`: the key and at least one more character. */
  predicate EpochAt(s: string, i: nat)
  {
    KeyAt(s, EpochKey, i) && i + |EpochKey| < |s|
  }

  /** `epoch_pattern.search(line)` from position `i`: the text after the match. */
  function EpochFrom(s: string, i: nat): Option<string>
    requires i <= |s|
    decreases |s| - i
  {
    if EpochAt(s, i) then Some(s[i + |EpochKey|..])
    else if i == |s| then None
    else EpochFrom(s, i + 1)
  }

  /** The epoch search finds the leftmost `Epoch: ` with text after it, and returns that text. */
  lemma {:induction false} EpochIsLeftmost(s: string, i: nat)
    requires i <= |s|
    ensures EpochFrom(s, i).None? <==> forall j :: i <= j <= |s| ==> !EpochAt(s, j)
    ensures EpochFrom(s, i).Some? ==> exists j ::
      && i <= j <= |s| && EpochAt(s, j) && EpochFrom(s, i).value == s[j + |EpochKey|..]
      && forall l :: i <= l < j ==> !EpochAt(s, l)
    decreases |s| - i
  {
    var r := EpochFrom(s, i);
    if EpochAt(s, i) {
      assert r == Some(s[i + |EpochKey|..]);
    } else if i == |s| {
      assert r.None?;
    } else {
      assert r == EpochFrom(s, i + 1);
      EpochIsLeftmost(s, i + 1);
      if r.Some? {
        var j :| && i + 1 <= j <= |s| && EpochAt(s, j) && r.value == s[j + |EpochKey|..]
                 && forall l :: i + 1 <= l < j ==> !EpochAt(s, l);
        assert forall l :: i <= l < j ==> !EpochAt(s, l);
      }
    }
  }

  function EpochMatch(s: string): Option<string>
  {
    EpochFrom(s, 0)
  }

  // ------------------------------------------------------------ values

  function DigitValue(c: char): nat
  {
    if IsDigit(c) then (c as int - '0' as int) as nat else 0
  }

  /** The value of a run of decimal digits. */
  function Natural(s: string): nat
  {
    if |s| == 0 then 0 else 10 * Natural(s[..|s| - 1]) + DigitValue(s[|s| - 1])
  }

  function Pow10(n: nat): (p: nat)
    ensures p >= 1
  {
    if n == 0 then 1 else 10 * Pow10(n - 1)
  }

  /** `float(match.group(1))`, exactly. */
  function Value(d: Decimal): real
  {
    Natural(d.whole) as real + Natural(d.fraction) as real / Pow10(|d.fraction|) as real
  }

  /** `n` digits make a number below 10ⁿ. */
  lemma {:induction false} NaturalBelowPow10(s: string)
    ensures Natural(s) < Pow10(|s|)
  {
    if |s| > 0 {
      NaturalBelowPow10(s[..|s| - 1]);
    }
  }

  /** The fraction digits only add a part in [0, 1): the whole part is the integer part. */
  lemma ValueBounds(d: Decimal)
    ensures Natural(d.whole) as real <= Value(d) < Natural(d.whole) as real + 1.0
  {
    NaturalBelowPow10(d.fraction);
    FractionBelowOne(Natural(d.fraction) as real, Pow10(|d.fraction|) as real);
  }

  lemma FractionBelowOne(f: real, p: real)
    requires 0.0 <= f < p
    ensures 0.0 <= f / p < 1.0
  {
    assert f / p * p == f;
  }

  // -------------------------------------------------------------- scan

  /** A value of `min_refined_fde`: `float('inf')` or a parsed number. */
  datatype Bound = Infinity | Finite(value: real)

  /** `x < bound`. */
  predicate Below(x: real, bound: Bound)
  {
    bound.Infinity? || x < bound.value
  }

  /** `a <= b` for two bounds. */
  predicate AtMost(a: Bound, b: Bound)
  {
    b.Infinity? || (a.Finite? && a.value <= b.value)
  }

  /** What the three searches find on one line, numbers converted by `float`. */
  datatype Matches = Matches(epoch: Option<string>, fde: Option<real>, ade: Option<real>)

  function Converted(m: Option<Decimal>): Option<real>
  {
    if m.None? then None else Some(Value(m.value))
  }

  /** `epoch_pattern.search(line)`, `refined_fde_pattern.search(line)` and `refined_ade_pattern.search(line)`. */
  function MatchLine(line: string): Matches
  {
    Matches(EpochMatch(line), Converted(Search(line, FdeKey)), Converted(Search(line, AdeKey)))
  }

  function MatchLines(lines: seq<string>): (ms: seq<Matches>)
    ensures |ms| == |lines|
  {
    seq(|lines|, j requires 0 <= j < |lines| => MatchLine(lines[j]))
  }

  /** The loop variables `current_epoch`, `min_refined_fde` and `min_refined_ade`. */
  datatype Scan = Scan(epoch: Option<string>, minFde: Bound, minAde: Option<real>)

  const Start: Scan := Scan(None, Infinity, None)

  /**
   * One pass of the loop.  None is the failure of `.group(1)` on a missing
   * `Refined_ADE` match, which only a line that lowers the minimum reaches.
   */
  function Step(st: Scan, m: Matches): Option<Scan>
  {
    if m.epoch.Some? then Some(st.(epoch := m.epoch))
    else if m.fde.None? || !Below(m.fde.value, st.minFde) then Some(st)
    else if m.ade.None? then None
    else Some(Scan(st.epoch, Finite(m.fde.value), m.ade))
  }

  /** The loop over the lines, in order; None once a pass has failed. */
  function ScanLines(ms: seq<Matches>): Option<Scan>
  {
    if |ms| == 0 then Some(Start)
    else
      var prev := ScanLines(ms[..|ms| - 1]);
      if prev.None? then None else Step(prev.value, ms[|ms| - 1])
  }

  /** What `parse_evaluation_results` ends with. */
  datatype Outcome =
    | Results(ade: Option<real>, fde: Bound)   // (min_refined_ade, min_refined_fde)
    | MissingAde                               // AttributeError on `None.group`

  function Evaluate(text: string): Outcome
  {
    var st := ScanLines(MatchLines(SplitLines(text)));
    if st.None? then MissingAde else Results(st.value.minAde, st.value.minFde)
  }

  // --------------------------------------------------------- properties

  /** A line that takes the FDE branch: no epoch match, but a `Refined_FDE` value. */
  predicate FdeLine(m: Matches)
  {
    m.epoch.None? && m.fde.Some?
  }

  /**
   * Line `k` is the first line with the smallest FDE value: every FDE line
   * before it has a larger value and no FDE line anywhere has a smaller one.
   */
  predicate FirstMinimum(ms: seq<Matches>, k: nat)
  {
    && k < |ms| && FdeLine(ms[k])
    && (forall j :: 0 <= j < k && FdeLine(ms[j]) ==> ms[k].fde.value < ms[j].fde.value)
    && (forall j :: 0 <= j < |ms| && FdeLine(ms[j]) ==> ms[k].fde.value <= ms[j].fde.value)
  }

  /** Line `k` sets a record: its FDE value is below that of every earlier FDE line. */
  predicate Record(ms: seq<Matches>, k: nat)
  {
    && k < |ms| && FdeLine(ms[k])
    && forall j :: 0 <= j < k && FdeLine(ms[j]) ==> ms[k].fde.value < ms[j].fde.value
  }

  /** The result of a successful scan, in terms of the lines alone. */
  ghost predicate Summarises(ms: seq<Matches>, st: Scan)
  {
    && (st.minFde.Infinity? <==> forall j :: 0 <= j < |ms| ==> !FdeLine(ms[j]))
    && (st.minFde.Infinity? ==> st.minAde.None?)
    && (st.minFde.Finite? ==> exists k: nat ::
          && FirstMinimum(ms, k) && ms[k].ade.Some?
          && st.minFde.value == ms[k].fde.value && st.minAde == ms[k].ade)
  }

  /**
   * After a successful scan, `min_refined_fde` is the smallest FDE value of
   * the FDE lines (infinity when there is none) and `min_refined_ade` is the
   * ADE value of the first line that reached it.
   */
  lemma {:induction false} ScanSummarises(ms: seq<Matches>)
    ensures ScanLines(ms).Some? ==> Summarises(ms, ScanLines(ms).value)
  {
    if |ms| > 0 && ScanLines(ms).Some? {
      var n := |ms| - 1;
      var front := ms[..n];
      ScanSummarises(front);
      var st := ScanLines(front).value;
      var m := ms[n];
      assert forall j :: 0 <= j < n ==> ms[j] == front[j];
      if FdeLine(m) && Below(m.fde.value, st.minFde) {
        assert FirstMinimum(ms, n) by {
          if st.minFde.Finite? {
            var k: nat :| FirstMinimum(front, k) && st.minFde.value == front[k].fde.value;
          }
        }
      } else if st.minFde.Finite? {
        var k: nat :| && FirstMinimum(front, k) && front[k].ade.Some?
                      && st.minFde.value == front[k].fde.value && st.minAde == front[k].ade;
        assert FirstMinimum(ms, k);
      }
    }
  }

  /** The scan fails exactly when some record-setting FDE line has no `Refined_ADE` match. */
  lemma {:induction false} ScanFailsIff(ms: seq<Matches>)
    ensures ScanLines(ms).None? <==> exists k: nat :: Record(ms, k) && ms[k].ade.None?
  {
    if |ms| > 0 {
      var n := |ms| - 1;
      var front := ms[..n];
      ScanFailsIff(front);
      ScanSummarises(front);
      assert forall j :: 0 <= j < n ==> ms[j] == front[j];
      if ScanLines(front).None? {
        var k: nat :| Record(front, k) && front[k].ade.None?;
        assert Record(ms, k);
      } else {
        var st := ScanLines(front).value;
        var m := ms[n];
        assert forall k: nat :: Record(ms, k) && k < n ==> Record(front, k);
        if FdeLine(m) && Below(m.fde.value, st.minFde) {
          if st.minFde.Finite? {
            var k: nat :| FirstMinimum(front, k) && st.minFde.value == front[k].fde.value;
          }
          assert Record(ms, n);
        } else if FdeLine(m) {
          var k: nat :| FirstMinimum(front, k) && st.minFde.value == front[k].fde.value;
          assert !Record(ms, n) by {
            assert FdeLine(ms[k]) && !(m.fde.value < ms[k].fde.value);
          }
        } else {
          assert !Record(ms, n);
        }
      }
    }
  }

  predicate NoFdeLine(ms: seq<Matches>)
  {
    forall j :: 0 <= j < |ms| ==> !FdeLine(ms[j])
  }

  /** Without FDE lines the scan succeeds and keeps infinity and no ADE. */
  lemma NoFdeLinesScan(ms: seq<Matches>)
    requires NoFdeLine(ms)
    ensures ScanLines(ms).Some?
    ensures ScanLines(ms).value.minFde == Infinity && ScanLines(ms).value.minAde == None
  {
    ScanFailsIff(ms);
    forall k: nat
      ensures !Record(ms, k)
    {
      if k < |ms| {
        assert !FdeLine(ms[k]);
      }
    }
    ScanSummarises(ms);
  }

  /** A log with no FDE line gives `(None, inf)`. */
  lemma NoFdeLines(text: string)
    requires NoFdeLine(MatchLines(SplitLines(text)))
    ensures Evaluate(text) == Results(None, Infinity)
  {
    NoFdeLinesScan(MatchLines(SplitLines(text)));
  }

  /** An `Epoch:` line never changes the minimum, even when it also holds an FDE value. */
  lemma EpochLineIgnored(st: Scan, m: Matches)
    requires m.epoch.Some?
    ensures var next := Step(st, m);
      next.Some? && next.value.minFde == st.minFde && next.value.minAde == st.minAde
  {
  }

  /** A line whose FDE value is not below the minimum is harmless, ADE or not: ties keep the earlier line. */
  lemma NoImprovementKeepsState(st: Scan, m: Matches)
    requires FdeLine(m) && !Below(m.fde.value, st.minFde)
    ensures Step(st, m) == Some(st)
  {
  }

  /** The running minimum never increases. */
  lemma StepLowersMinimum(st: Scan, m: Matches)
    ensures var next := Step(st, m);
      next.Some? ==> AtMost(next.value.minFde, st.minFde)
  {
  }

  /** Scanning one more line is one more pass of the loop. */
  lemma ScanStep(ms: seq<Matches>, i: nat)
    requires i < |ms|
    ensures var prev := ScanLines(ms[..i]);
      ScanLines(ms[..i + 1]) == if prev.None? then None else Step(prev.value, ms[i])
  {
    assert ms[..i + 1][..i] == ms[..i];
  }

  /** Once a pass has failed, the rest of the log does not matter. */
  lemma {:induction false} ScanStopsAtFailure(ms: seq<Matches>, i: nat)
    requires i <= |ms| && ScanLines(ms[..i]).None?
    ensures ScanLines(ms).None?
    decreases |ms| - i
  {
    if i < |ms| {
      ScanStep(ms, i);
      ScanStopsAtFailure(ms, i + 1);
    } else {
      assert ms[..i] == ms;
    }
  }

  /** `parse_evaluation_results`: the loop over the lines of the log. */
  method ParseEvaluationResults(fileContent: string) returns (r: Outcome)
    ensures r == Evaluate(fileContent)
  {
    var lines := SplitLines(fileContent);
    ghost var ms := MatchLines(lines);
    var currentEpoch: Option<string> := None;
    var minRefinedFde := Infinity;
    var minRefinedAde: Option<real> := None;
    for i := 0 to |lines|
      invariant ScanLines(ms[..i]) == Some(Scan(currentEpoch, minRefinedFde, minRefinedAde))
    {
      var line := lines[i];
      ScanStep(ms, i);
      var epochMatch := EpochMatch(line);
      var refinedAdeMatch := Search(line, AdeKey);
      var refinedFdeMatch := Search(line, FdeKey);
      assert ms[i] == Matches(epochMatch, Converted(refinedFdeMatch), Converted(refinedAdeMatch));
      if epochMatch.Some? {
        currentEpoch := epochMatch;
      } else if refinedFdeMatch.Some? {
        var currentRefinedFde := Value(refinedFdeMatch.value);
        if Below(currentRefinedFde, minRefinedFde) {
          if refinedAdeMatch.None? {
            ScanStopsAtFailure(ms, i + 1);
            return MissingAde;
          }
          minRefinedFde := Finite(currentRefinedFde);
          minRefinedAde := Some(Value(refinedAdeMatch.value));
        }
      }
    }
    assert ms[..|lines|] == ms;
    r := Results(minRefinedAde, minRefinedFde);
  }
}
