/** Character-level helpers: white space, line splitting and decimal numerals.

    `CompleteLines` and `Remainder` cut a text at its newlines; both the event
    stream of `Sse` and the file of `Journal` are read through them. */
module Text {

  const NEWLINE := '\n'

  /** The Unicode `White_Space` property, which Rust's `trim` family uses. */
  predicate IsWhite(c: char) {
    var n := c as int;
    || 0x9 <= n <= 0xD || n == 0x20 || n == 0x85 || n == 0xA0 || n == 0x1680
    || 0x2000 <= n <= 0x200A || n == 0x2028 || n == 0x2029 || n == 0x202F
    || n == 0x205F || n == 0x3000
  }

  function TrimStart(s: string): string {
    if s != "" && IsWhite(s[0]) then TrimStart(s[1..]) else s
  }

  function TrimEnd(s: string): string {
    if s != "" && IsWhite(s[|s| - 1]) then TrimEnd(s[..|s| - 1]) else s
  }

  function Trim(s: string): string {
    TrimEnd(TrimStart(s))
  }

  predicate HasPrefix(s: string, prefix: string) {
    prefix <= s
  }

  predicate Contains(s: string, part: string) {
    exists i :: 0 <= i <= |s| - |part| && part <= s[i..]
  }

  /** `s` goes on from `prefix`. */
  ghost predicate Extends(s: string, prefix: string) {
    exists rest: string :: s == prefix + rest
  }

  /** `part` occurs in `s`. */
  ghost predicate Occurs(s: string, part: string) {
    exists before: string, after: string :: s == before + part + after
  }

  lemma PrefixExactly(s: string, prefix: string)
    ensures HasPrefix(s, prefix) <==> Extends(s, prefix)
  {
    if HasPrefix(s, prefix) {
      assert s == prefix + s[|prefix|..];
    }
  }

  lemma ContainsExactly(s: string, part: string)
    ensures Contains(s, part) <==> Occurs(s, part)
  {
    if Contains(s, part) {
      var i :| 0 <= i <= |s| - |part| && part <= s[i..];
      CutAround(s, part, i);
    }
    if Occurs(s, part) {
      var before: string, after: string :| s == before + part + after;
      PartAt(before, part, after);
    }
  }

  lemma CutAround(s: string, part: string, i: nat)
    requires i + |part| <= |s| && part <= s[i..]
    ensures s == s[..i] + part + s[i + |part|..]
  {
    assert s[i..][..|part|] == part;
  }

  lemma PartAt(before: string, part: string, after: string)
    ensures part <= (before + part + after)[|before|..]
  {
    assert (before + part + after)[|before|..] == part + after;
  }

  ghost predicate AllWhite(s: string) {
    forall c | c in s :: IsWhite(c)
  }

  /** Trimming takes white space off both ends, and all of it. */
  lemma TrimExactly(s: string)
    ensures exists before: string, after: string ::
              AllWhite(before) && AllWhite(after) && s == before + Trim(s) + after
    ensures Trim(s) != "" ==> !IsWhite(Trim(s)[0]) && !IsWhite(Trim(s)[|Trim(s)| - 1])
  {
    hide IsWhite;
    var before := TrimStartExactly(s);
    var after := TrimEndExactly(TrimStart(s));
    assert s == before + Trim(s) + after;
    if Trim(s) != "" {
      assert Trim(s)[0] == TrimStart(s)[0];
    }
  }

  lemma {:induction false} TrimEndIgnores(s: string, after: string)
    requires AllWhite(after)
    ensures TrimEnd(s + after) == TrimEnd(s)
  {
    hide IsWhite;
    if after == "" {
      assert s + after == s;
    } else {
      var n := |after| - 1;
      assert after[n] in after && (s + after)[..|s| + n] == s + after[..n];
      TrimEndIgnores(s, after[..n]);
    }
  }

  lemma {:induction false} TrimStartIgnores(before: string, s: string)
    requires AllWhite(before)
    ensures TrimStart(before + s) == TrimStart(s)
  {
    hide IsWhite;
    if before == "" {
      assert before + s == s;
    } else {
      assert before[0] in before && (before + s)[1..] == before[1..] + s;
      TrimStartIgnores(before[1..], s);
    }
  }

  predicate IsTrimmed(s: string) {
    s != "" ==> !IsWhite(s[0]) && !IsWhite(s[|s| - 1])
  }

  /** White space around a trimmed text is what trimming takes off again. */
  lemma TrimUndoes(before: string, s: string, after: string)
    requires AllWhite(before) && AllWhite(after) && IsTrimmed(s)
    ensures Trim(before + s + after) == s
  {
    assert before + s + after == before + (s + after);
    TrimStartIgnores(before, s + after);
    if s == "" {
      assert s + after == after;
      BlankExactly(after);
    } else {
      assert (s + after)[0] == s[0];
      TrimEndIgnores(s, after);
    }
  }

  lemma TrimTwice(s: string)
    ensures Trim(TrimEnd(s)) == Trim(s)
  {
    hide IsWhite, Trim, AllWhite;
    var after := TrimEndExactly(s);
    var core := TrimEnd(s);
    TrimExactly(core);
    var x: string, y: string :| AllWhite(x) && AllWhite(y) && core == x + Trim(core) + y;
    assert s == x + Trim(core) + (y + after);
    WhiteTogether(y, after);
    TrimUndoes(x, Trim(core), y + after);
  }

  lemma WhiteTogether(x: string, y: string)
    requires AllWhite(x) && AllWhite(y)
    ensures AllWhite(x + y)
  {
  }

  lemma BlankExactly(s: string)
    ensures Trim(s) == "" <==> AllWhite(s)
  {
    hide IsWhite, Trim;
    TrimExactly(s);
    var before: string, after: string :| AllWhite(before) && AllWhite(after) && s == before + Trim(s) + after;
    if Trim(s) != "" {
      assert s[|before|] == Trim(s)[0];
    }
  }

  lemma {:induction false} TrimStartExactly(s: string) returns (before: string)
    ensures AllWhite(before) && s == before + TrimStart(s)
    ensures TrimStart(s) != "" ==> !IsWhite(TrimStart(s)[0])
  {
    before := "";
    if s != "" && IsWhite(s[0]) {
      var rest := TrimStartExactly(s[1..]);
      before := [s[0]] + rest;
      assert s == [s[0]] + s[1..];
    }
  }

  lemma {:induction false} TrimEndExactly(s: string) returns (after: string)
    ensures AllWhite(after) && s == TrimEnd(s) + after
    ensures TrimEnd(s) != "" ==> !IsWhite(TrimEnd(s)[|TrimEnd(s)| - 1])
  {
    after := "";
    if s != "" && IsWhite(s[|s| - 1]) {
      var rest := TrimEndExactly(s[..|s| - 1]);
      after := rest + [s[|s| - 1]];
      assert s == s[..|s| - 1] + [s[|s| - 1]];
    }
  }

  /** All the texts of `parts`, in order, as one text. */
  function Concat(parts: seq<string>): string {
    if parts == [] then "" else parts[0] + Concat(parts[1..])
  }

  lemma {:induction false} ConcatAppend(a: seq<string>, b: seq<string>)
    ensures Concat(a + b) == Concat(a) + Concat(b)
  {
    if a == [] {
      assert a + b == b;
    } else {
      assert (a + b)[1..] == a[1..] + b;
      ConcatAppend(a[1..], b);
    }
  }

  lemma ConcatSingle(s: string)
    ensures Concat([s]) == s
  {
    assert Concat([s]) == s + Concat([]);
  }

  /** The position of the first newline, or the length when there is none. */
  function FindNewline(s: string): (i: nat)
    ensures i <= |s| && NEWLINE !in s[..i]
    ensures i < |s| ==> s[i] == NEWLINE
  {
    if s == "" || s[0] == NEWLINE then 0
    else
      var i := 1 + FindNewline(s[1..]);
      assert s[..i] == [s[0]] + s[1..][..i - 1];
      i
  }

  /** One complete line: its only newline is its last character. */
  predicate IsLine(line: string) {
    line != "" && line[|line| - 1] == NEWLINE && NEWLINE !in line[..|line| - 1]
  }

  /** The complete lines of a text, newlines included. */
  function CompleteLines(s: string): (lines: seq<string>)
    ensures forall line :: line in lines ==> IsLine(line)
    decreases |s|
  {
    var i := FindNewline(s);
    if i == |s| then [] else
    assert s[..i + 1][..i] == s[..i];
    [s[..i + 1]] + CompleteLines(s[i + 1..])
  }

  /** What follows the last newline. */
  function Remainder(s: string): (rest: string)
    ensures NEWLINE !in rest
    decreases |s|
  {
    var i := FindNewline(s);
    if i == |s| then assert s[..i] == s; s else Remainder(s[i + 1..])
  }

  /** Splitting is the only way to cut a text into lines and an open rest: any
      whole lines written in front come back as they are. */
  lemma {:induction false} LinesOfWhole(lines: seq<string>, rest: string)
    requires forall line :: line in lines ==> IsLine(line)
    ensures CompleteLines(Concat(lines) + rest) == lines + CompleteLines(rest)
    ensures Remainder(Concat(lines) + rest) == Remainder(rest)
  {
    hide CompleteLines, Remainder;
    if lines == [] {
      assert Concat(lines) + rest == rest;
    } else {
      var line := lines[0];
      var tail := Concat(lines[1..]) + rest;
      LinesOfWhole(lines[1..], rest);
      FirstLine(line, tail);
      assert Concat(lines) + rest == line + tail;
      assert [line] + (lines[1..] + CompleteLines(rest)) == lines + CompleteLines(rest);
    }
  }

  lemma FirstLine(line: string, tail: string)
    requires IsLine(line)
    ensures CompleteLines(line + tail) == [line] + CompleteLines(tail)
    ensures Remainder(line + tail) == Remainder(tail)
  {
    NewlineEndsFirstLine(line, tail);
  }

  lemma NewlineEndsFirstLine(line: string, tail: string)
    requires IsLine(line)
    ensures FindNewline(line + tail) == |line| - 1
    ensures (line + tail)[..|line|] == line && (line + tail)[|line|..] == tail
  {
    var s := line + tail;
    var i := FindNewline(s);
    assert forall k | 0 <= k < |line| - 1 :: s[k] == line[..|line| - 1][k] && s[k] != NEWLINE;
    assert forall k | 0 <= k < i :: s[k] == s[..i][k] && s[k] != NEWLINE;
    assert s[|line| - 1] == NEWLINE;
  }

  lemma NoNewlineNoLines(s: string)
    requires NEWLINE !in s
    ensures CompleteLines(s) == [] && Remainder(s) == s
  {
    assert forall k | 0 <= k < |s| :: s[k] in s;
  }

  lemma LineUpTo(buf: string, nl: nat)
    requires nl < |buf| && buf[nl] == NEWLINE && NEWLINE !in buf[..nl]
    ensures IsLine(buf[..nl + 1]) && buf == buf[..nl + 1] + buf[nl + 1..]
  {
    assert buf[..nl + 1][..nl] == buf[..nl];
  }

  /** Cutting at the first newline. */
  lemma SplitAtNewline(buf: string)
    requires FindNewline(buf) < |buf|
    ensures var nl := FindNewline(buf);
            && IsLine(buf[..nl + 1])
            && buf == buf[..nl + 1] + buf[nl + 1..]
            && CompleteLines(buf) == [buf[..nl + 1]] + CompleteLines(buf[nl + 1..])
            && Remainder(buf) == Remainder(buf[nl + 1..])
  {
    hide *;
    var nl := FindNewline(buf);
    LineUpTo(buf, nl);
    FirstLine(buf[..nl + 1], buf[nl + 1..]);
  }

  /** Splitting loses nothing. */
  lemma {:induction false} LinesRebuild(s: string)
    ensures Concat(CompleteLines(s)) + Remainder(s) == s
    decreases |s|
  {
    hide *;
    var i := FindNewline(s);
    if i == |s| {
      assert s[..i] == s;
      NoNewlineNoLines(s);
      ConcatEmpty(s);
    } else {
      SplitAtNewline(s);
      LinesRebuild(s[i + 1..]);
      ConcatCons(s[..i + 1], CompleteLines(s[i + 1..]), Remainder(s));
    }
  }

  lemma ConcatEmpty(s: string)
    ensures Concat([]) + s == s
  {
  }

  lemma ConcatCons(first: string, rest: seq<string>, tail: string)
    ensures Concat([first] + rest) + tail == first + (Concat(rest) + tail)
  {
    assert ([first] + rest)[1..] == rest;
  }

  /** Rust's decimal rendering of an unsigned number. */
  function Decimal(n: nat): string {
    if n < 10 then ["0123456789"[n]] else Decimal(n / 10) + ["0123456789"[n % 10]]
  }

  function DigitValue(c: char): nat {
    if '0' <= c <= '9' then c as int - '0' as int else 0
  }

  function ParseDecimal(s: string): nat {
    if s == "" then 0 else 10 * ParseDecimal(s[..|s| - 1]) + DigitValue(s[|s| - 1])
  }

  lemma {:induction false} DecimalRoundTrip(n: nat)
    ensures ParseDecimal(Decimal(n)) == n
    ensures Decimal(n) != "" && forall c :: c in Decimal(n) ==> '0' <= c <= '9'
  {
    var digit := "0123456789"[n % 10];
    assert DigitValue(digit) == n % 10;
    if n < 10 {
      assert Decimal(n)[..0] == "";
    } else {
      DecimalRoundTrip(n / 10);
      var s := Decimal(n);
      assert s[..|s| - 1] == Decimal(n / 10);
    }
  }

  lemma DecimalInjective(m: nat, n: nat)
    requires Decimal(m) == Decimal(n)
    ensures m == n
  {
    DecimalRoundTrip(m);
    DecimalRoundTrip(n);
  }
}
