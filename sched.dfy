/** The configuration-line tokeniser of the scheduler (sched.c): a line
    "<priority> <path> <args>" becomes a process record. The C library's strtok
    and atoi are modelled as functions, the executable check isExec (a call to the
    operating system's stat) is a predicate the caller supplies, and strings are
    the characters before their terminating NUL. */
module Sched {

  /** struct process: the fields initStruct writes are priority, path and args. */
  datatype Process = Process(pid: int, priority: int, path: string, args: string, completed: bool)

  predicate IsDigit(c: char) {
    '0' <= c <= '9'
  }

  /** Every character is a decimal digit; the empty string qualifies. */
  predicate AllDigits(s: string) {
    forall i :: 0 <= i < |s| ==> IsDigit(s[i])
  }

  /** isNumeric: scans the string and stops with false at the first character
      outside '0'..'9'. */
  method IsNumeric(str: string) returns (numeric: bool)
    ensures numeric <==> AllDigits(str)
  {
    for i := 0 to |str|
      invariant forall j :: 0 <= j < i ==> IsDigit(str[j])
    {
      if str[i] < '0' || str[i] > '9' {
        return false;
      }
    }
    return true;
  }

  function Pow10(k: nat): nat {
    if k == 0 then 1 else 10 * Pow10(k - 1)
  }

  lemma {:induction false} Pow10Monotone(j: nat, k: nat)
    requires j <= k
    ensures Pow10(j) <= Pow10(k)
  {
    if j < k {
      Pow10Monotone(j, k - 1);
    }
  }

  function DigitValue(c: char): (d: nat)
    requires IsDigit(c)
    ensures d < 10
  {
    c as int - '0' as int
  }

  function DigitChar(d: nat): (c: char)
    requires d < 10
    ensures IsDigit(c) && DigitValue(c) == d
  {
    ('0' as int + d) as char
  }

  /** What atoi gives for a string of decimal digits: its value in base 10,
      leading zeros allowed. A string of k digits denotes a number below 10^k. */
  function DecimalValue(s: string): (n: nat)
    requires AllDigits(s)
    ensures n < Pow10(|s|)
  {
    if s == [] then 0
    else
      var init := s[..|s| - 1];
      var v := DecimalValue(init);
      assert 10 * v + DigitValue(s[|s| - 1]) < 10 * (v + 1) <= 10 * Pow10(|init|);
      10 * v + DigitValue(s[|s| - 1])
  }

  /** The shortest decimal numeral for n. */
  function Decimal(n: nat): (s: string)
    ensures s != [] && AllDigits(s)
  {
    if n < 10 then [DigitChar(n)] else Decimal(n / 10) + [DigitChar(n % 10)]
  }

  /** Reading back a written numeral gives the number: the priority a
      configuration file states is the priority the parser stores. */
  lemma {:induction false} DecimalRoundTrip(n: nat)
    ensures DecimalValue(Decimal(n)) == n
  {
    if n >= 10 {
      DecimalRoundTrip(n / 10);
      var s := Decimal(n);
      assert s[..|s| - 1] == Decimal(n / 10);
    }
  }

  /** A priority token of at most nine digits fits in a 32-bit C int; longer
      tokens can overflow atoi, whose result is then undefined. */
  lemma NineDigitsFitInInt(s: string)
    requires AllDigits(s) && |s| <= 9
    ensures DecimalValue(s) <= 0x7fff_ffff
  {
    Pow10Monotone(|s|, 9);
    assert Pow10(9) == 1_000_000_000;
  }

  /** Length of the longest prefix of s made of delimiters (strspn). */
  function SpanIn(s: string, delims: set<char>): (n: nat)
    ensures n <= |s|
    ensures forall i :: 0 <= i < n ==> s[i] in delims
    ensures n < |s| ==> s[n] !in delims
  {
    if s == [] || s[0] !in delims then 0 else 1 + SpanIn(s[1..], delims)
  }

  /** Length of the longest prefix of s free of delimiters (strcspn). */
  function SpanNotIn(s: string, delims: set<char>): (n: nat)
    ensures n <= |s|
    ensures forall i :: 0 <= i < n ==> s[i] !in delims
    ensures n < |s| ==> s[n] in delims
  {
    if s == [] || s[0] in delims then 0 else 1 + SpanNotIn(s[1..], delims)
  }

  /** The result of one strtok call on the text that remains: NULL, or a token
      starting `start` characters in, and the text after the delimiter that ends
      it (strtok overwrites that delimiter with NUL and resumes after it). */
  datatype StrtokResult = Null | Found(start: nat, token: string, rest: string)

  /** strtok: skips leading delimiters, returns NULL if nothing else remains, and
      otherwise the maximal run of non-delimiters that follows. */
  function Strtok(s: string, delims: set<char>): (r: StrtokResult)
    ensures r.Null? <==> forall i :: 0 <= i < |s| ==> s[i] in delims
    ensures r.Found? ==>
              r.token != [] && r.start + |r.token| <= |s| &&
              (forall i :: 0 <= i < r.start ==> s[i] in delims) &&
              r.token == s[r.start..r.start + |r.token|] &&
              (forall i :: 0 <= i < |r.token| ==> r.token[i] !in delims) &&
              if r.start + |r.token| == |s| then r.rest == []
              else s[r.start + |r.token|] in delims && r.rest == s[r.start + |r.token| + 1..]
  {
    var a := SpanIn(s, delims);
    if a == |s| then Null
    else
      var b := SpanNotIn(s[a..], delims);
      Found(a, s[a..a + b], if a + b == |s| then [] else s[a + b + 1..])
  }

  /** The delimiters of the three strtok calls. The third call passes '\n' as a
      character where a string is expected; it is modelled as the evidently
      intended "\n". */
  const FieldDelims: set<char> := {' '}
  const LineEnd: set<char> := {'\n'}

  /** The three tokens initStruct reads, each from where the previous one left off. */
  function PriorityToken(line: string): (r: StrtokResult) {
    Strtok(line, FieldDelims)
  }

  function PathToken(line: string): (r: StrtokResult)
    requires PriorityToken(line).Found?
  {
    Strtok(PriorityToken(line).rest, FieldDelims)
  }

  function ArgsToken(line: string): (r: StrtokResult)
    requires PriorityToken(line).Found? && PathToken(line).Found?
  {
    Strtok(PathToken(line).rest, LineEnd)
  }

  /** A line initStruct accepts: a numeric first token, a second token that is an
      executable, and something left for the arguments. */
  predicate Accepted(line: string, isExec: string -> bool) {
    PriorityToken(line).Found? && AllDigits(PriorityToken(line).token) &&
    PathToken(line).Found? && isExec(PathToken(line).token) &&
    ArgsToken(line).Found?
  }

  /** initStruct: fills in the process record from one configuration line.
      Returns -1 at the first step that fails, leaving the fields written by the
      earlier steps in place, and 0 once priority, path and args are all set. */
  method InitStruct(line: string, isExec: string -> bool, proc: Process) returns (status: int, out: Process)
    ensures status == (if Accepted(line, isExec) then 0 else -1)
    ensures out.pid == proc.pid && out.completed == proc.completed
    ensures out.priority ==
              if PriorityToken(line).Found? && AllDigits(PriorityToken(line).token)
              then DecimalValue(PriorityToken(line).token) else proc.priority
    ensures out.path ==
              if PriorityToken(line).Found? && AllDigits(PriorityToken(line).token) &&
                 PathToken(line).Found? && isExec(PathToken(line).token)
              then PathToken(line).token else proc.path
    ensures out.args == if Accepted(line, isExec) then ArgsToken(line).token else proc.args
  {
    out := proc;
    var token := Strtok(line, FieldDelims);
    if token.Null? {
      return -1, out;
    }
    var numeric := IsNumeric(token.token);
    if !numeric {
      return -1, out;
    }
    out := out.(priority := DecimalValue(token.token));
    token := Strtok(token.rest, FieldDelims);
    if token.Null? {
      return -1, out;
    }
    if !isExec(token.token) {
      return -1, out;
    }
    out := out.(path := token.token);
    token := Strtok(token.rest, LineEnd);
    if token.Null? {
      return -1, out;
    }
    out := out.(args := token.token);
    return 0, out;
  }

  /** A path as a configuration line can carry it: no spaces and no newline. */
  predicate PathField(path: string) {
    path != [] && forall i :: 0 <= i < |path| ==> path[i] != ' ' && path[i] != '\n'
  }

  /** Arguments as a configuration line can carry them: anything up to the newline. */
  predicate ArgsField(args: string) {
    args != [] && forall i :: 0 <= i < |args| ==> args[i] != '\n'
  }

  /** The configuration line "<priority> <path> <args>\n". */
  function ConfigLine(priority: nat, path: string, args: string): (line: string) {
    Decimal(priority) + " " + path + " " + args + "\n"
  }

  /** A token followed by one delimiter is found at once, and strtok resumes
      right after that delimiter. */
  lemma TokenThenDelim(token: string, d: char, rest: string, delims: set<char>)
    requires token != [] && d in delims
    requires forall i :: 0 <= i < |token| ==> token[i] !in delims
    ensures Strtok(token + [d] + rest, delims) == Found(0, token, rest)
  {
    var s := token + [d] + rest;
    var r := Strtok(s, delims);
    assert s[0] !in delims;
    assert !r.Null?;
    assert r.start == 0;
    assert forall i :: 0 <= i < |r.token| ==> s[i] == r.token[i] && s[i] !in delims;
    assert forall i :: 0 <= i < |token| ==> s[i] == token[i] && s[i] !in delims;
    assert s[|token|] in delims;
    assert |r.token| == |token|;
    assert r.token == token;
    assert r.rest == s[|token| + 1..];
  }

  lemma DecimalHasNoDelims(n: nat)
    ensures forall i :: 0 <= i < |Decimal(n)| ==> Decimal(n)[i] !in FieldDelims
  {
    var s := Decimal(n);
    forall i | 0 <= i < |s| ensures s[i] !in FieldDelims {
      assert IsDigit(s[i]);
    }
  }

  /** Round trip: a line written as "<priority> <path> <args>\n" splits into
      exactly those three fields, with the priority read back as written. */
  lemma ConfigLineTokens(priority: nat, path: string, args: string)
    requires PathField(path) && ArgsField(args)
    ensures var line := ConfigLine(priority, path, args);
            PriorityToken(line).Found? && PriorityToken(line).token == Decimal(priority) &&
            DecimalValue(PriorityToken(line).token) == priority &&
            PathToken(line).Found? && PathToken(line).token == path &&
            ArgsToken(line).Found? && ArgsToken(line).token == args
  {
    var line := ConfigLine(priority, path, args);
    var numeral := Decimal(priority);
    var afterPriority := path + " " + args + "\n";
    var afterPath := args + "\n";
    assert line == numeral + [' '] + afterPriority;
    assert afterPriority == path + [' '] + afterPath;
    assert afterPath == args + ['\n'] + [];
    assert PriorityToken(line) == Found(0, numeral, afterPriority) by {
      DecimalHasNoDelims(priority);
      TokenThenDelim(numeral, ' ', afterPriority, FieldDelims);
    }
    assert PathToken(line) == Found(0, path, afterPath) by {
      TokenThenDelim(path, ' ', afterPath, FieldDelims);
    }
    assert ArgsToken(line) == Found(0, args, []) by {
      TokenThenDelim(args, '\n', [], LineEnd);
    }
    DecimalRoundTrip(priority);
  }

  /** Hence initStruct accepts a well-formed configuration line exactly when its
      path passes the executable check, and then stores the line's three fields. */
  lemma ConfigLineAccepted(priority: nat, path: string, args: string, isExec: string -> bool)
    requires PathField(path) && ArgsField(args)
    ensures Accepted(ConfigLine(priority, path, args), isExec) <==> isExec(path)
  {
    ConfigLineTokens(priority, path, args);
  }

  /** A token that runs to the end of the text is found at once, and nothing
      remains after it. */
  lemma TokenAtEnd(token: string, delims: set<char>)
    requires token != []
    requires forall i :: 0 <= i < |token| ==> token[i] !in delims
    ensures Strtok(token, delims) == Found(0, token, [])
  {
    var r := Strtok(token, delims);
    assert token[0] !in delims;
    assert r.start == 0;
    assert |r.token| == |token|;
  }

  /** A line that stops after the path, "<priority> <path>\n", is always rejected:
      the space delimiter does not split off the newline, so the path token takes
      it, and no text is left for the arguments. */
  lemma LineWithoutArgsRejected(priority: nat, path: string, isExec: string -> bool)
    requires PathField(path)
    ensures !Accepted(Decimal(priority) + " " + path + "\n", isExec)
  {
    var line := Decimal(priority) + " " + path + "\n";
    var numeral := Decimal(priority);
    var afterPriority := path + "\n";
    assert line == numeral + [' '] + afterPriority;
    assert PriorityToken(line) == Found(0, numeral, afterPriority) by {
      DecimalHasNoDelims(priority);
      TokenThenDelim(numeral, ' ', afterPriority, FieldDelims);
    }
    assert PathToken(line) == Found(0, afterPriority, []) by {
      assert forall i :: 0 <= i < |afterPriority| ==> afterPriority[i] !in FieldDelims;
      TokenAtEnd(afterPriority, FieldDelims);
    }
    assert ArgsToken(line) == Null;
  }
}
