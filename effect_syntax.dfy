/**
 * The bracket structure of the effect at lines 154-188 of
 * src/components/AIWeeklyEmailSystem.tsx. Each line is reduced to its
 * delimiters `(`, `)`, `{`, `}`, `[` and `]` outside strings, template
 * literals and comments; lines without any are dropped. As written, the
 * `};` of line 179 closes the effect's arrow body while the argument list of
 * `useEffect(` is still open, so the `}` of line 188 meets a `(`: the module
 * does not parse. Evidently the countdown effect was meant to end after its
 * interval (line 175), and the hourly check to be a second effect that
 * defines `checkAndSendEmail`; AIWeeklyEmail models that intended behaviour.
 */
module EffectSyntax {
  import opened Wrappers

  /** The closers a parser still expects, innermost first. */
  datatype Stack = Empty | Push(top: char, rest: Stack)

  predicate IsOpener(c: char) {
    c == '(' || c == '{' || c == '['
  }

  predicate IsCloser(c: char) {
    c == ')' || c == '}' || c == ']'
  }

  /** The closer that matches an opener. */
  function CloserOf(c: char): char {
    if c == '(' then ')' else if c == '{' then '}' else ']'
  }

  /**
   * A parser's bracket check over a text: openers push their closer, a
   * closer must match the innermost pending one. `None` means a closer met
   * the wrong opener, or none at all.
   */
  function Scan(s: string, pending: Stack): (r: Option<Stack>)
    ensures s == [] ==> r == Some(pending)
    decreases |s|
  {
    if s == [] then Some(pending)
    else if IsOpener(s[0]) then Scan(s[1..], Push(CloserOf(s[0]), pending))
    else if IsCloser(s[0]) then
      if pending.Push? && pending.top == s[0] then Scan(s[1..], pending.rest) else None
    else Scan(s[1..], pending)
  }

  /** A text parses when every opener is closed by its own closer. */
  predicate Balanced(s: string) {
    Scan(s, Empty) == Some(Empty)
  }

  /** The lines of a text joined into one. */
  function Join(lines: seq<string>): (s: string)
    ensures lines == [] ==> s == []
  {
    if lines == [] then [] else lines[0] + Join(lines[1..])
  }

  /** The same check, one line at a time. */
  function ScanLines(lines: seq<string>, pending: Stack): Option<Stack>
    decreases |lines|
  {
    if lines == [] then Some(pending)
    else match Scan(lines[0], pending)
      case None => None
      case Some(q) => ScanLines(lines[1..], q)
  }

  /** Scanning a concatenation is scanning its parts in turn. */
  lemma {:induction false} ScanAppend(a: string, b: string, pending: Stack)
    ensures Scan(a + b, pending) == if Scan(a, pending).None? then None else Scan(b, Scan(a, pending).value)
    decreases |a|
  {
    if a != [] {
      assert (a + b)[0] == a[0] && (a + b)[1..] == a[1..] + b;
      if IsOpener(a[0]) {
        ScanAppend(a[1..], b, Push(CloserOf(a[0]), pending));
      } else if IsCloser(a[0]) {
        if pending.Push? && pending.top == a[0] {
          ScanAppend(a[1..], b, pending.rest);
        }
      } else {
        ScanAppend(a[1..], b, pending);
      }
    } else {
      assert a + b == b;
    }
  }

  /** Scanning line by line is scanning the joined text. */
  lemma {:induction false} ScanLinesJoin(lines: seq<string>, pending: Stack)
    ensures ScanLines(lines, pending) == Scan(Join(lines), pending)
    decreases |lines|
  {
    if lines != [] {
      ScanAppend(lines[0], Join(lines[1..]), pending);
      match Scan(lines[0], pending)
      case None =>
      case Some(q) => ScanLinesJoin(lines[1..], q);
    }
  }

  /** Scanning two blocks of lines is scanning the first, then the second. */
  lemma {:induction false} ScanLinesAppend(a: seq<string>, b: seq<string>, pending: Stack)
    ensures ScanLines(a + b, pending) == if ScanLines(a, pending).None? then None else ScanLines(b, ScanLines(a, pending).value)
    decreases |a|
  {
    if a != [] {
      assert (a + b)[0] == a[0] && (a + b)[1..] == a[1..] + b;
      match Scan(a[0], pending)
      case None =>
      case Some(q) => ScanLinesAppend(a[1..], b, q);
    } else {
      assert a + b == b;
    }
  }

  // Lines 154-158: `useEffect(() => {`, the countdown's `updateNextEmailTime`
  // and the start of its date arithmetic.
  const CountdownHead: seq<string> := ["((){", "(){", "()", "()", "()()"]
  // Lines 160-164: the days to the next Monday and the `if` that formats them.
  const CountdownTimer: seq<string> := ["(){", "(())", "((())())", "(){"]
  // Lines 165-169: the branches of the countdown text.
  const CountdownUpdate: seq<string> := ["()", "}{", "()", "}", "}{"]
  // Lines 170-175: the last branch, the end of `updateNextEmailTime`, its
  // first call and the minute interval.
  const CountdownClose: seq<string> := ["()", "}", "}", "()", "()"]
  // Lines 176-179: the due check and the `};` that ends the effect's body.
  const CheckBody: seq<string> := ["(()){", "()", "}", "}"]
  // Lines 182-188: the first check, the hourly interval, the cleanup and the
  // dependency list.
  const CheckTail: seq<string> := ["()", "()", "()()", "}[])"]

  /** Lines 154-188 as written. */
  const AsWrittenEffect: seq<string> :=
    CountdownHead + CountdownTimer + CountdownUpdate + CountdownClose + CheckBody + CheckTail

  /**
   * The seam evidently intended after line 175: the countdown's cleanup
   * `return () => clearInterval(interval); }, []);`, then the header
   * `useEffect(() => { const checkAndSendEmail = () => {` of the hourly check.
   */
  const CountdownEnd: seq<string> := ["()()}[])"]
  const CheckStart: seq<string> := ["((){(){"]

  /** Lines 154-188 with the seam restored. */
  const CorrectedEffect: seq<string> :=
    CountdownHead + CountdownTimer + CountdownUpdate + CountdownClose + CountdownEnd + CheckStart + CheckBody + CheckTail

  // What each block does to the pending closers, in the versions below.

  lemma CountdownHeadScan()
    ensures ScanLines(CountdownHead, Empty) == Some(Push('}', Push('}', Push(')', Empty))))
  {
  }

  lemma CountdownTimerScan()
    ensures ScanLines(CountdownTimer, Push('}', Push('}', Push(')', Empty)))) == Some(Push('}', Push('}', Push('}', Push('}', Push(')', Empty))))))
  {
  }

  lemma CountdownUpdateScan()
    ensures ScanLines(CountdownUpdate, Push('}', Push('}', Push('}', Push('}', Push(')', Empty)))))) == Some(Push('}', Push('}', Push('}', Push(')', Empty)))))
  {
  }

  lemma CountdownCloseScan()
    ensures ScanLines(CountdownClose, Push('}', Push('}', Push('}', Push(')', Empty))))) == Some(Push('}', Push(')', Empty)))
  {
  }

  lemma CheckBodyScan()
    ensures ScanLines(CheckBody, Push('}', Push(')', Empty))) == Some(Push(')', Empty))
    ensures ScanLines(CheckBody, Push('}', Push('}', Push(')', Empty)))) == Some(Push('}', Push(')', Empty)))
  {
  }

  lemma CheckTailScan()
    ensures ScanLines(CheckTail, Push(')', Empty)) == None
    ensures ScanLines(CheckTail, Push('}', Push(')', Empty))) == Some(Empty)
  {
  }

  lemma SeamScan()
    ensures ScanLines(CountdownEnd, Push('}', Push(')', Empty))) == Some(Empty)
    ensures ScanLines(CheckStart, Empty) == Some(Push('}', Push('}', Push(')', Empty))))
  {
  }

  /** The four blocks of lines 154-175 leave `useEffect(` and its arrow body open. */
  lemma CountdownScan()
    ensures ScanLines(CountdownHead + CountdownTimer + CountdownUpdate + CountdownClose, Empty) == Some(Push('}', Push(')', Empty)))
  {
    CountdownHeadScan();
    CountdownTimerScan();
    CountdownUpdateScan();
    CountdownCloseScan();
    ScanLinesAppend(CountdownHead, CountdownTimer, Empty);
    ScanLinesAppend(CountdownHead + CountdownTimer, CountdownUpdate, Empty);
    ScanLinesAppend(CountdownHead + CountdownTimer + CountdownUpdate, CountdownClose, Empty);
  }

  /**
   * As written, after line 179 only the parenthesis of `useEffect(` of line
   * 154 is still open, and the first closer after it, the `}` of line 188,
   * does not match it: the delimiters of lines 154-188 do not balance.
   */
  lemma AsWrittenEffectUnbalanced()
    ensures ScanLines(CountdownHead + CountdownTimer + CountdownUpdate + CountdownClose + CheckBody, Empty)
      == Some(Push(')', Empty))
    ensures Scan(Join(AsWrittenEffect), Empty) == None
    ensures !Balanced(Join(AsWrittenEffect))
  {
    var countdown := CountdownHead + CountdownTimer + CountdownUpdate + CountdownClose;
    CountdownScan();
    CheckBodyScan();
    CheckTailScan();
    ScanLinesAppend(countdown, CheckBody, Empty);
    ScanLinesAppend(countdown + CheckBody, CheckTail, Empty);
    ScanLinesJoin(AsWrittenEffect, Empty);
  }

  /** With the seam restored the delimiters balance: two complete effects. */
  lemma CorrectedEffectBalanced()
    ensures Balanced(Join(CorrectedEffect))
    ensures Balanced(Join(CountdownHead + CountdownTimer + CountdownUpdate + CountdownClose + CountdownEnd))
    ensures Balanced(Join(CheckStart + CheckBody + CheckTail))
  {
    var countdown := CountdownHead + CountdownTimer + CountdownUpdate + CountdownClose;
    CountdownScan();
    SeamScan();
    CheckBodyScan();
    CheckTailScan();
    ScanLinesAppend(countdown, CountdownEnd, Empty);
    ScanLinesAppend(countdown + CountdownEnd, CheckStart, Empty);
    ScanLinesAppend(countdown + CountdownEnd + CheckStart, CheckBody, Empty);
    ScanLinesAppend(countdown + CountdownEnd + CheckStart + CheckBody, CheckTail, Empty);
    ScanLinesAppend(CheckStart, CheckBody, Empty);
    ScanLinesAppend(CheckStart + CheckBody, CheckTail, Empty);
    ScanLinesJoin(CorrectedEffect, Empty);
    ScanLinesJoin(countdown + CountdownEnd, Empty);
    ScanLinesJoin(CheckStart + CheckBody + CheckTail, Empty);
  }
}
