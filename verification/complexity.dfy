/**
 The editor's complexity estimate: one pass over the lines of the code that
 tracks loop nesting by indentation and sets feature flags, then two priority
 tables turning the flags into a time and a space label.

 The regular-expression tests are not modelled; they are the given
 `Detectors`. Two defects of the analysis are kept as thrown errors: a `def`
 line without a name after `def` makes the name lookup read index 1 of a
 failed match (a TypeError), and the fallback test of the time table reads a
 variable that is only in scope inside the loop (a ReferenceError).
 */
module Complexity {
  import opened Wrappers
  import opened Text

  /** The labels the analysis shows. */
  datatype Order = Constant | Logarithmic | Linear | Linearithmic | Quadratic | Exponential

  function Label(o: Order): string {
    match o
    case Constant => "O(1)"
    case Logarithmic => "O(log n)"
    case Linear => "O(n)"
    case Linearithmic => "O(n log n)"
    case Quadratic => "O(n\U{00B2})"
    case Exponential => "O(2\U{207F})"
  }

  /** The display tells the orders apart: no two orders share a label. */
  lemma LabelsDistinct(a: Order, b: Order)
    ensures Label(a) == Label(b) <==> a == b
  {
  }

  /** The labels ordered from cheapest to most expensive. */
  function Rank(o: Order): nat {
    match o
    case Constant => 0
    case Logarithmic => 1
    case Linear => 2
    case Linearithmic => 3
    case Quadratic => 4
    case Exponential => 5
  }

  /** The `{time, space}` pair the editor displays. */
  datatype Analysis = Analysis(time: Order, space: Order)

  /** The displayed pair before any analysis has run: `O(1)` for both. */
  const InitialAnalysis: Analysis := Analysis(Constant, Constant)

  /** What the analysis can throw. */
  datatype JsError = TypeError | ReferenceError

  /**
   The per-line regular-expression tests, each applied to the line after it
   is trimmed and lower-cased: a `for`/`while` keyword, a `def … ( … ) … :`
   header, the name captured after `def` and whitespace (absent when that
   match fails), a data-structure word, a sorting word, and an
   exponential-operation word.
   */
  datatype Detectors = Detectors(
    isLoop: string -> bool,
    isDef: string -> bool,
    defName: string -> Option<string>,
    mentionsDataStructure: string -> bool,
    mentionsSorting: string -> bool,
    mentionsExponential: string -> bool)

  /** `getIndentationLevel`: the length of the leading run of spaces and tabs. */
  function Indentation(line: string): (n: nat)
    ensures n <= |line|
    ensures forall i :: 0 <= i < n ==> line[i] == ' ' || line[i] == '\t'
    ensures n == |line| || (line[n] != ' ' && line[n] != '\t')
  {
    if line != [] && (line[0] == ' ' || line[0] == '\t') then 1 + Indentation(line[1..]) else 0
  }

  /** The loop variables of the scan. */
  datatype Scan = Scan(
    maxLoopNesting: nat,
    currentNesting: nat,
    hasRecursion: bool,
    hasDataStructures: bool,
    hasSorting: bool,
    hasExponentialOps: bool)

  const Start: Scan := Scan(0, 0, false, false, false, false)

  function Max(a: nat, b: nat): nat {
    if a < b then b else a
  }

  /** A `def` header whose name lookup fails: reading the name throws. */
  predicate Throws(d: Detectors, line: string) {
    d.isDef(line) && d.defName(line).None?
  }

  /** A `def` header whose name occurs somewhere in the code. */
  predicate Recursive(d: Detectors, code: string, line: string) {
    d.isDef(line) && d.defName(line).Some? && Includes(code, d.defName(line).value)
  }

  /**
   One iteration of the scan, on line `i`. A loop line starts a new nest at
   depth 1 when it is not indented deeper than the line before it, and goes
   one level deeper otherwise; other lines keep the nesting as it is. Each
   flag is set once its test fires and stays set.
   */
  function ScanLine(d: Detectors, code: string, lines: seq<string>, i: nat, acc: Scan): (r: Result<Scan, JsError>)
    requires i < |lines|
    ensures r.Failure? <==> Throws(d, lines[i])
    ensures r.Failure? ==> r.error == TypeError
    ensures r.Success? && !d.isLoop(lines[i]) ==>
      r.value.currentNesting == acc.currentNesting && r.value.maxLoopNesting == acc.maxLoopNesting
    ensures r.Success? && d.isLoop(lines[i]) && 0 < i && Indentation(lines[i]) <= Indentation(lines[i - 1]) ==>
      r.value.currentNesting == 1
    ensures r.Success? && d.isLoop(lines[i]) && !(0 < i && Indentation(lines[i]) <= Indentation(lines[i - 1])) ==>
      r.value.currentNesting == acc.currentNesting + 1
    ensures r.Success? && d.isLoop(lines[i]) ==>
      r.value.maxLoopNesting == Max(acc.maxLoopNesting, r.value.currentNesting)
    ensures r.Success? ==>
      && r.value.hasRecursion == (acc.hasRecursion || Recursive(d, code, lines[i]))
      && r.value.hasDataStructures == (acc.hasDataStructures || d.mentionsDataStructure(lines[i]))
      && r.value.hasSorting == (acc.hasSorting || d.mentionsSorting(lines[i]))
      && r.value.hasExponentialOps == (acc.hasExponentialOps || d.mentionsExponential(lines[i]))
  {
    var line := lines[i];
    var nesting :=
      if !d.isLoop(line) then acc.currentNesting
      else if i > 0 && Indentation(line) <= Indentation(lines[i - 1]) then 1
      else acc.currentNesting + 1;
    var maxNesting := if d.isLoop(line) then Max(acc.maxLoopNesting, nesting) else acc.maxLoopNesting;
    if d.isDef(line) && d.defName(line).None? then
      Failure(TypeError)
    else
      Success(Scan(
        maxNesting,
        nesting,
        acc.hasRecursion || (d.isDef(line) && Includes(code, d.defName(line).value)),
        acc.hasDataStructures || d.mentionsDataStructure(line),
        acc.hasSorting || d.mentionsSorting(line),
        acc.hasExponentialOps || d.mentionsExponential(line)))
  }

  /** The scan over the first `n` lines; the first error thrown ends it. */
  function ScanPrefix(d: Detectors, code: string, lines: seq<string>, n: nat): Result<Scan, JsError>
    requires n <= |lines|
  {
    if n == 0 then Success(Start)
    else
      match ScanPrefix(d, code, lines, n - 1)
      case Failure(e) => Failure(e)
      case Success(acc) => ScanLine(d, code, lines, n - 1, acc)
  }

  /** Number of loop lines among the first `n`. */
  function LoopLines(d: Detectors, lines: seq<string>, n: nat): (k: nat)
    requires n <= |lines|
    ensures k <= n
  {
    if n == 0 then 0 else LoopLines(d, lines, n - 1) + (if d.isLoop(lines[n - 1]) then 1 else 0)
  }

  /**
   The running maximum of the nesting never falls below the current nesting
   and never exceeds the number of loop lines seen, and it is positive
   exactly when some loop line was seen.
   */
  lemma {:induction false} NestingBounds(d: Detectors, code: string, lines: seq<string>, n: nat)
    requires n <= |lines|
    requires ScanPrefix(d, code, lines, n).Success?
    ensures var acc := ScanPrefix(d, code, lines, n).value;
      && acc.currentNesting <= acc.maxLoopNesting <= LoopLines(d, lines, n)
      && (acc.maxLoopNesting >= 1 <==> LoopLines(d, lines, n) >= 1)
  {
    if n > 0 {
      NestingBounds(d, code, lines, n - 1);
    }
  }

  /** Some of the first `n` lines throws on its name lookup. */
  ghost predicate ThrowSeen(d: Detectors, lines: seq<string>, n: nat)
    requires n <= |lines|
  {
    exists i :: 0 <= i < n && Throws(d, lines[i])
  }

  /** Some of the first `n` lines is a loop line. */
  ghost predicate LoopSeen(d: Detectors, lines: seq<string>, n: nat)
    requires n <= |lines|
  {
    exists i :: 0 <= i < n && d.isLoop(lines[i])
  }

  /** Line `j` is a loop line indented deeper than the line before it. */
  predicate DeeperLoopAt(d: Detectors, lines: seq<string>, j: nat)
    requires j < |lines|
  {
    0 < j && d.isLoop(lines[j]) && Indentation(lines[j - 1]) < Indentation(lines[j])
  }

  /**
   Among the first `n` lines, a loop line indented deeper than the line
   before it follows an earlier loop line.
   */
  ghost predicate NestedLoopSeen(d: Detectors, lines: seq<string>, n: nat)
    requires n <= |lines|
  {
    exists j :: 0 <= j < n && DeeperLoopAt(d, lines, j) && LoopSeen(d, lines, j)
  }

  /** Some of the first `n` lines is a `def` header whose name occurs in the code. */
  ghost predicate RecursionSeen(d: Detectors, code: string, lines: seq<string>, n: nat)
    requires n <= |lines|
  {
    exists i :: 0 <= i < n && Recursive(d, code, lines[i])
  }

  /** Some of the first `n` lines mentions a data structure. */
  ghost predicate DataStructureSeen(d: Detectors, lines: seq<string>, n: nat)
    requires n <= |lines|
  {
    exists i :: 0 <= i < n && d.mentionsDataStructure(lines[i])
  }

  /** Some of the first `n` lines mentions sorting. */
  ghost predicate SortingSeen(d: Detectors, lines: seq<string>, n: nat)
    requires n <= |lines|
  {
    exists i :: 0 <= i < n && d.mentionsSorting(lines[i])
  }

  /** Some of the first `n` lines mentions an exponential operation. */
  ghost predicate ExponentialSeen(d: Detectors, lines: seq<string>, n: nat)
    requires n <= |lines|
  {
    exists i :: 0 <= i < n && d.mentionsExponential(lines[i])
  }

  /** The scan throws exactly when one of its lines does, and then it is a TypeError. */
  lemma {:induction false} ScanFails(d: Detectors, code: string, lines: seq<string>, n: nat)
    requires n <= |lines|
    ensures ScanPrefix(d, code, lines, n).Failure? <==> ThrowSeen(d, lines, n)
    ensures ScanPrefix(d, code, lines, n).Failure? ==> ScanPrefix(d, code, lines, n).error == TypeError
  {
    if n > 0 {
      ScanFails(d, code, lines, n - 1);
      if Throws(d, lines[n - 1]) {
        assert ThrowSeen(d, lines, n);
      }
      if ThrowSeen(d, lines, n) && !Throws(d, lines[n - 1]) {
        var i :| 0 <= i < n && Throws(d, lines[i]);
        assert ThrowSeen(d, lines, n - 1);
      }
    }
  }

  /** Each flag of a finished scan is set exactly when some line fired its test. */
  lemma {:induction false} ScanFlags(d: Detectors, code: string, lines: seq<string>, n: nat)
    requires n <= |lines|
    requires ScanPrefix(d, code, lines, n).Success?
    ensures var s := ScanPrefix(d, code, lines, n).value;
      && (s.hasRecursion <==> RecursionSeen(d, code, lines, n))
      && (s.hasDataStructures <==> DataStructureSeen(d, lines, n))
      && (s.hasSorting <==> SortingSeen(d, lines, n))
      && (s.hasExponentialOps <==> ExponentialSeen(d, lines, n))
  {
    if n > 0 {
      ScanFlags(d, code, lines, n - 1);
      var line := lines[n - 1];
      if Recursive(d, code, line) { assert RecursionSeen(d, code, lines, n); }
      if d.mentionsDataStructure(line) { assert DataStructureSeen(d, lines, n); }
      if d.mentionsSorting(line) { assert SortingSeen(d, lines, n); }
      if d.mentionsExponential(line) { assert ExponentialSeen(d, lines, n); }
      if RecursionSeen(d, code, lines, n) && !Recursive(d, code, line) {
        var i :| 0 <= i < n && Recursive(d, code, lines[i]);
        assert RecursionSeen(d, code, lines, n - 1);
      }
      if DataStructureSeen(d, lines, n) && !d.mentionsDataStructure(line) {
        var i :| 0 <= i < n && d.mentionsDataStructure(lines[i]);
        assert DataStructureSeen(d, lines, n - 1);
      }
      if SortingSeen(d, lines, n) && !d.mentionsSorting(line) {
        var i :| 0 <= i < n && d.mentionsSorting(lines[i]);
        assert SortingSeen(d, lines, n - 1);
      }
      if ExponentialSeen(d, lines, n) && !d.mentionsExponential(line) {
        var i :| 0 <= i < n && d.mentionsExponential(lines[i]);
        assert ExponentialSeen(d, lines, n - 1);
      }
    }
  }

  /** A finished scan has some nesting exactly when one of its lines was a loop line. */
  lemma {:induction false} ScanLoops(d: Detectors, code: string, lines: seq<string>, n: nat)
    requires n <= |lines|
    requires ScanPrefix(d, code, lines, n).Success?
    ensures var s := ScanPrefix(d, code, lines, n).value;
      && (s.currentNesting >= 1 <==> LoopSeen(d, lines, n))
      && (s.maxLoopNesting >= 1 <==> LoopSeen(d, lines, n))
  {
    if n > 0 {
      ScanLoops(d, code, lines, n - 1);
      var j := n - 1;
      if d.isLoop(lines[j]) {
        assert LoopSeen(d, lines, n);
      } else if LoopSeen(d, lines, n) {
        var i :| 0 <= i < n && d.isLoop(lines[i]);
        assert LoopSeen(d, lines, j);
      }
    }
  }

  /**
   A finished scan reaches a nesting of two or more exactly when a loop line
   indented deeper than its predecessor follows another loop line.
   */
  lemma {:induction false} ScanNesting(d: Detectors, code: string, lines: seq<string>, n: nat)
    requires n <= |lines|
    requires ScanPrefix(d, code, lines, n).Success?
    ensures ScanPrefix(d, code, lines, n).value.maxLoopNesting >= 2 <==> NestedLoopSeen(d, lines, n)
  {
    if n > 0 {
      var j := n - 1;
      ScanNesting(d, code, lines, j);
      ScanLoops(d, code, lines, j);
      var acc := ScanPrefix(d, code, lines, j).value;
      var s := ScanPrefix(d, code, lines, n).value;
      assert ScanLine(d, code, lines, j, acc) == Success(s);
      if NestedLoopSeen(d, lines, n) {
        var i :| 0 <= i < n && DeeperLoopAt(d, lines, i) && LoopSeen(d, lines, i);
        if i < j {
          assert NestedLoopSeen(d, lines, j);
        }
      }
      if s.maxLoopNesting >= 2 {
        if acc.maxLoopNesting >= 2 {
          var i :| 0 <= i < j && DeeperLoopAt(d, lines, i) && LoopSeen(d, lines, i);
          assert NestedLoopSeen(d, lines, n);
        } else {
          assert DeeperLoopAt(d, lines, j) && LoopSeen(d, lines, j);
          assert NestedLoopSeen(d, lines, n);
        }
      }
    }
  }

  /** A line that none of the tests fires on. */
  predicate Plain(d: Detectors, line: string) {
    !d.isLoop(line) && !d.isDef(line) && !d.mentionsDataStructure(line)
    && !d.mentionsSorting(line) && !d.mentionsExponential(line)
  }

  /** A scan over plain lines finds nothing. */
  lemma {:induction false} PlainLinesScanToStart(d: Detectors, code: string, lines: seq<string>, n: nat)
    requires n <= |lines|
    requires forall i :: 0 <= i < n ==> Plain(d, lines[i])
    ensures ScanPrefix(d, code, lines, n) == Success(Start)
  {
    if n > 0 {
      PlainLinesScanToStart(d, code, lines, n - 1);
    }
  }

  /**
   Every feature of `a` is a feature of `b`: `b` comes from code with at least
   as much in it.
   */
  predicate Covers(a: Scan, b: Scan) {
    && a.maxLoopNesting <= b.maxLoopNesting
    && (a.hasRecursion ==> b.hasRecursion)
    && (a.hasDataStructures ==> b.hasDataStructures)
    && (a.hasSorting ==> b.hasSorting)
    && (a.hasExponentialOps ==> b.hasExponentialOps)
  }

  /**
   The time table: exponential operations, then nesting of two or more, then
   sorting, then a single loop, then recursion. When none of these holds the
   fallback test throws, so `O(1)` is never the time label.
   */
  function TimeOrder(s: Scan): (r: Result<Order, JsError>)
    ensures r != Success(Constant)
    ensures r.Failure? <==> !s.hasExponentialOps && s.maxLoopNesting == 0 && !s.hasSorting && !s.hasRecursion
    ensures r.Failure? ==> r.error == ReferenceError
    ensures r == Success(Exponential) <==> s.hasExponentialOps
    ensures r == Success(Quadratic) <==> !s.hasExponentialOps && s.maxLoopNesting >= 2
    ensures r == Success(Linearithmic) <==> !s.hasExponentialOps && s.maxLoopNesting < 2 && s.hasSorting
    ensures r == Success(Linear) <==> !s.hasExponentialOps && s.maxLoopNesting == 1 && !s.hasSorting
    ensures r == Success(Logarithmic) <==> !s.hasExponentialOps && s.maxLoopNesting == 0 && !s.hasSorting && s.hasRecursion
  {
    if s.hasExponentialOps then Success(Exponential)
    else if s.maxLoopNesting >= 2 then Success(Quadratic)
    else if s.hasSorting then Success(Linearithmic)
    else if s.maxLoopNesting == 1 then Success(Linear)
    else if s.hasRecursion then Success(Logarithmic)
    else Failure(ReferenceError)
  }

  /** The space table: nested loops with data structures, then either alone, then recursion. */
  function SpaceOrder(s: Scan): (r: Order)
    ensures r in {Constant, Logarithmic, Linear, Quadratic}
    ensures r == Constant <==> !s.hasDataStructures && s.maxLoopNesting == 0 && !s.hasRecursion
    ensures r == Quadratic <==> s.maxLoopNesting >= 2 && s.hasDataStructures
    ensures r == Linear <==> !(s.maxLoopNesting >= 2 && s.hasDataStructures) && (s.hasDataStructures || s.maxLoopNesting >= 1)
    ensures r == Logarithmic <==> !s.hasDataStructures && s.maxLoopNesting == 0 && s.hasRecursion
  {
    if s.maxLoopNesting >= 2 && s.hasDataStructures then Quadratic
    else if s.hasDataStructures || s.maxLoopNesting >= 1 then Linear
    else if s.hasRecursion then Logarithmic
    else Constant
  }

  /** Both tables are priority tables: code with more features never gets a cheaper label. */
  lemma TablesMonotone(a: Scan, b: Scan)
    requires Covers(a, b)
    ensures TimeOrder(a).Success? ==> TimeOrder(b).Success? && Rank(TimeOrder(a).value) <= Rank(TimeOrder(b).value)
    ensures Rank(SpaceOrder(a)) <= Rank(SpaceOrder(b))
  {
  }

  /**
   `analyzeComplexity(code)`: the labels it would set, or what it throws,
   read off the lines of the code. A `def` line without a name throws a
   TypeError; code in which no exponential operation, loop, sorting or
   recursion shows up throws a ReferenceError; otherwise the time label is
   the first of exponential, nested loops, sorting, a loop, recursion that
   the lines show, and the space label the first of nested loops with a data
   structure, a data structure or a loop, recursion, or else `O(1)`.
   */
  function Analyze(d: Detectors, code: string): (r: Result<Analysis, JsError>)
    ensures r.Success? ==> r.value.time != Constant
    ensures r.Success? && r.value.time == Quadratic ==> LoopLines(d, Lines(code), |Lines(code)|) >= 2
    ensures r.Success? && r.value.space == Quadratic ==> LoopLines(d, Lines(code), |Lines(code)|) >= 2
    ensures var ls := Lines(code);
      r == Failure(TypeError) <==> ThrowSeen(d, ls, |ls|)
    ensures var ls := Lines(code);
      r == Failure(ReferenceError) <==>
        && !ThrowSeen(d, ls, |ls|)
        && !ExponentialSeen(d, ls, |ls|) && !LoopSeen(d, ls, |ls|)
        && !SortingSeen(d, ls, |ls|) && !RecursionSeen(d, code, ls, |ls|)
    ensures var ls := Lines(code); r.Success? ==>
      && (r.value.time == Exponential <==> ExponentialSeen(d, ls, |ls|))
      && (r.value.time == Quadratic <==> !ExponentialSeen(d, ls, |ls|) && NestedLoopSeen(d, ls, |ls|))
      && (r.value.time == Linearithmic <==>
            !ExponentialSeen(d, ls, |ls|) && !NestedLoopSeen(d, ls, |ls|) && SortingSeen(d, ls, |ls|))
      && (r.value.time == Linear <==>
            !ExponentialSeen(d, ls, |ls|) && !NestedLoopSeen(d, ls, |ls|) && !SortingSeen(d, ls, |ls|) && LoopSeen(d, ls, |ls|))
      && (r.value.time == Logarithmic <==>
            !ExponentialSeen(d, ls, |ls|) && !LoopSeen(d, ls, |ls|) && !SortingSeen(d, ls, |ls|) && RecursionSeen(d, code, ls, |ls|))
    ensures var ls := Lines(code); r.Success? ==>
      && (r.value.space == Quadratic <==> NestedLoopSeen(d, ls, |ls|) && DataStructureSeen(d, ls, |ls|))
      && (r.value.space == Linear <==>
            !(NestedLoopSeen(d, ls, |ls|) && DataStructureSeen(d, ls, |ls|))
            && (DataStructureSeen(d, ls, |ls|) || LoopSeen(d, ls, |ls|)))
      && (r.value.space == Logarithmic <==>
            !DataStructureSeen(d, ls, |ls|) && !LoopSeen(d, ls, |ls|) && RecursionSeen(d, code, ls, |ls|))
      && (r.value.space == Constant <==>
            !DataStructureSeen(d, ls, |ls|) && !LoopSeen(d, ls, |ls|) && !RecursionSeen(d, code, ls, |ls|))
  {
    var lines := Lines(code);
    ScanFails(d, code, lines, |lines|);
    match ScanPrefix(d, code, lines, |lines|)
    case Failure(e) => Failure(e)
    case Success(s) =>
      NestingBounds(d, code, lines, |lines|);
      ScanFlags(d, code, lines, |lines|);
      ScanLoops(d, code, lines, |lines|);
      ScanNesting(d, code, lines, |lines|);
      match TimeOrder(s)
      case Failure(e) => Failure(e)
      case Success(t) => Success(Analysis(t, SpaceOrder(s)))
  }

  /** Code in which no test fires on any line makes the analysis throw. */
  lemma PlainCodeThrows(d: Detectors, code: string)
    requires forall i :: 0 <= i < |Lines(code)| ==> Plain(d, Lines(code)[i])
    ensures Analyze(d, code) == Failure(ReferenceError)
  {
    PlainLinesScanToStart(d, code, Lines(code), |Lines(code)|);
  }
}
