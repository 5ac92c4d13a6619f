/**
 The proof-of-work program: it looks for the first counter whose hash contains the argument, and
 checks results that claim to have found one. It runs as 32-bit WebAssembly, so `usize` has 32 bits.
 Text is a sequence of ASCII codes.
 */
module ProofOfWork {
  import opened Base

  const TWO32: nat := 0x1_0000_0000

  const COMMA: byte := 44
  const PLUS: byte := 43

  /** Keccak-256, and `String::from_utf8_lossy`. */
  datatype Library = Library(digest: Bytes -> Bytes, lossy: Bytes -> Bytes)

  ghost predicate Ascii(s: Bytes) {
    forall i | 0 <= i < |s| :: s[i] < 128
  }

  /** Text that is ASCII is valid UTF-8, and stays as it is. */
  ghost predicate Lawful(lib: Library) {
    forall s | Ascii(s) :: lib.lossy(s) == s
  }

  // ---------------------------------------------------------------- printing and parsing

  /** `format!("{}", n)`. */
  function Decimal(n: nat): Bytes {
    if n < 10 then [48 + n] else Decimal(n / 10) + [48 + n % 10]
  }

  predicate IsDigit(b: byte) {
    48 <= b < 58
  }

  predicate Digits(s: Bytes) {
    forall i | 0 <= i < |s| :: IsDigit(s[i])
  }

  function Value(s: Bytes): nat
    requires Digits(s)
  {
    if s == [] then 0 else 10 * Value(s[..|s| - 1]) + (s[|s| - 1] - 48)
  }

  /** `str::parse::<usize>`: an optional `+`, then digits, without overflow. */
  function Parse(s: Bytes): Option<nat> {
    var digits := if |s| > 1 && s[0] == PLUS then s[1..] else s;
    if digits == [] || !Digits(digits) || Value(digits) >= TWO32 then None else Some(Value(digits))
  }

  lemma {:induction false} DecimalParses(n: nat)
    ensures Decimal(n) != [] && Digits(Decimal(n)) && Value(Decimal(n)) == n
    decreases n
  {
    if n >= 10 {
      DecimalParses(n / 10);
      assert Decimal(n)[..|Decimal(n)| - 1] == Decimal(n / 10);
    } else {
      assert Decimal(n)[..0] == [];
    }
  }

  /** Printing then parsing a counter gives it back. */
  lemma PrintParse(n: nat)
    requires n < TWO32
    ensures Parse(Decimal(n)) == Some(n)
  {
    DecimalParses(n);
    assert IsDigit(Decimal(n)[0]);
  }

  // ---------------------------------------------------------------- hashes

  function HexDigit(n: nat): byte
    requires n < 16
  {
    if n < 10 then 48 + n else 87 + n
  }

  /** `format!("{:02x}", b)`, for every byte. */
  function Hex(s: Bytes): Bytes {
    if s == [] then []
    else
      var b: nat := s[|s| - 1];
      Hex(s[..|s| - 1]) + [HexDigit(b / 16), HexDigit(b % 16)]
  }

  function HashCounter(lib: Library, counter: nat): Bytes {
    Hex(lib.digest(Decimal(counter)))
  }

  /** The value of a hexadecimal digit, in lower case. */
  function DigitValue(b: byte): Option<nat> {
    if '0' as int <= b <= '9' as int then Some(b - '0' as int)
    else if 'a' as int <= b <= 'f' as int then Some(b - 'a' as int + 10)
    else None
  }

  /** Two digits a byte, the high one first; reading them gives the bytes back. */
  lemma {:induction false} HexReads(s: Bytes)
    ensures |Hex(s)| == 2 * |s|
    ensures forall i | 0 <= i < |s| :: HexAt(Hex(s), i, s[i])
  {
    if s != [] {
      var n := |s| - 1;
      HexReads(s[..n]);
      forall i | 0 <= i < |s| ensures HexAt(Hex(s), i, s[i]) {
        if i < n { assert HexAt(Hex(s[..n]), i, s[..n][i]); }
      }
    }
  }

  predicate HexAt(text: Bytes, i: nat, b: byte) {
    && 2 * i + 1 < |text|
    && DigitValue(text[2 * i]).Some? && DigitValue(text[2 * i + 1]).Some?
    && 16 * DigitValue(text[2 * i]).value + DigitValue(text[2 * i + 1]).value == b
  }

  /** No sign and no leading zeros. */
  lemma {:induction false} DecimalShort(n: nat)
    ensures Digits(Decimal(n)) && Decimal(n) != []
    ensures n > 0 ==> Decimal(n)[0] != '0' as int
    ensures n == 0 ==> Decimal(n) == ['0' as int]
    decreases n
  {
    DecimalParses(n);
    if n >= 10 { DecimalShort(n / 10); }
  }

  /** Some window of the text is the pattern; a text shorter than the pattern has none. */
  predicate Contains(pattern: Bytes, txt: Bytes) {
    exists i | 0 <= i <= |txt| - |pattern| :: WindowAt(pattern, txt, i)
  }

  predicate WindowAt(pattern: Bytes, txt: Bytes, i: nat)
    requires i <= |txt| - |pattern|
  {
    txt[i..i + |pattern|] == pattern
  }

  predicate Matches(lib: Library, argument: Bytes, counter: nat) {
    Contains(argument, HashCounter(lib, counter))
  }

  /** `({},{})`. */
  function Format(lib: Library, counter: nat): Bytes {
    [40] + Decimal(counter) + [COMMA] + HashCounter(lib, counter) + [41]
  }

  /** What is printed: a counter in shortest form and the hash of these digits, in parentheses, with a comma between. */
  lemma FormatReads(lib: Library, counter: nat)
    ensures var text := Format(lib, counter);
            var n := |Decimal(counter)|;
            && |text| == n + 3 + 2 * |lib.digest(Decimal(counter))|
            && text[0] == '(' as int && text[1 + n] == ',' as int && text[|text| - 1] == ')' as int
            && text[1..1 + n] == Decimal(counter) && Digits(text[1..1 + n]) && Value(text[1..1 + n]) == counter
            && (counter > 0 ==> text[1] != '0' as int)
            && forall i | 0 <= i < |lib.digest(Decimal(counter))| ::
                 HexAt(text[2 + n..|text| - 1], i, lib.digest(Decimal(counter))[i])
  {
    hide Decimal;
    hide Hex;
    hide HexAt;
    DecimalParses(counter);
    DecimalShort(counter);
    HexReads(lib.digest(Decimal(counter)));
    var text, n := Format(lib, counter), |Decimal(counter)|;
    assert text[1..1 + n] == Decimal(counter);
    assert text[2 + n..|text| - 1] == HashCounter(lib, counter);
  }

  // ---------------------------------------------------------------- the program

  /** `Forever`: no 32-bit counter fits, and the loop starts over. */
  datatype Run = Returned(result: Bytes) | Forever | RunPanic

  ghost predicate Solvable(lib: Library, argument: Bytes) {
    exists c :: 0 <= c < TWO32 && Matches(lib, argument, c)
  }

  ghost predicate First(lib: Library, argument: Bytes, c: nat) {
    c < TWO32 && Matches(lib, argument, c) && forall k | 0 <= k < c :: !Matches(lib, argument, k)
  }

  /** An empty argument makes `windows(0)` panic. */
  method MyRun(lib: Library, argument: Bytes) returns (r: Run)
    ensures r.RunPanic? <==> argument == []
    ensures r.Returned? <==> argument != [] && Solvable(lib, argument)
    ensures r.Returned? ==> exists c: nat :: First(lib, argument, c) && r.result == Format(lib, c)
  {
    hide Matches;
    if argument == [] { return RunPanic; }
    var counter: nat := 0;
    while counter < TWO32
      invariant counter <= TWO32
      invariant forall k | 0 <= k < counter :: !Matches(lib, argument, k)
    {
      if Matches(lib, argument, counter) {
        assert First(lib, argument, counter);
        return Returned(Format(lib, counter));
      }
      counter := counter + 1;
    }
    r := Forever;
  }

  datatype Verdict = Accepted | Refused | Malformed | TestPanic

  /** `test_result`: only what lies before the first comma, and between it and the next, is read. */
  function TestResult(lib: Library, argument: Bytes, result: Bytes): Verdict {
    if |result| < 2 then TestPanic
    else
      var text := lib.lossy(result[1..|result| - 1]);
      var i := IndexOf(text, COMMA);
      var counter := Parse(text[..i]);
      if counter.None? || i == |text| then Malformed
      else
        var rest := text[i + 1..];
        var hash := rest[..IndexOf(rest, COMMA)];
        if HashCounter(lib, counter.value) != hash then Refused
        else if argument == [] then TestPanic
        else if Contains(argument, hash) then Accepted
        else Refused
  }

  datatype TestRun = Found(index: nat) | Failed | TestRunPanic

  /** The results the host serves; an index is cut to 32 bits on its way there. */
  function Served(results: seq<Bytes>, i: nat): Bytes
    requires i < |results|
  {
    results[i % TWO32]
  }

  /** `my_test`: the first accepted result, unless one before it is malformed. */
  method MyTest(lib: Library, argument: Bytes, results: seq<Bytes>) returns (r: TestRun)
    ensures r.Found? ==>
              && r.index < |results| && TestResult(lib, argument, Served(results, r.index)) == Accepted
              && forall k | 0 <= k < r.index :: TestResult(lib, argument, Served(results, k)) == Refused
    ensures r.Found? <==> exists i :: 0 <= i < |results| && TestResult(lib, argument, Served(results, i)) == Accepted
                                      && forall k | 0 <= k < i :: TestResult(lib, argument, Served(results, k)) == Refused
    ensures r.TestRunPanic? <==> exists i :: 0 <= i < |results| && TestResult(lib, argument, Served(results, i)) == TestPanic
                                             && forall k | 0 <= k < i :: TestResult(lib, argument, Served(results, k)) == Refused
  {
    hide TestResult;
    var i := 0;
    while i < |results|
      invariant 0 <= i <= |results|
      invariant forall k | 0 <= k < i :: TestResult(lib, argument, Served(results, k)) == Refused
    {
      var verdict := TestResult(lib, argument, Served(results, i));
      if verdict.Malformed? { return Failed; }
      if verdict.TestPanic? { return TestRunPanic; }
      if verdict.Accepted? { return Found(i); }
      i := i + 1;
    }
    r := Failed;
  }

  // ---------------------------------------------------------------- printer and checker agree

  lemma {:induction false} HexPlain(s: Bytes)
    ensures Ascii(Hex(s)) && forall i | 0 <= i < |Hex(s)| :: Hex(s)[i] != COMMA
  {
    if s != [] { HexPlain(s[..|s| - 1]); }
  }

  /** The text of a result: a counter in some spelling, its hash, and what the checker does not look at. */
  function Text(lib: Library, spelling: Bytes, counter: nat, tail: Bytes): Bytes {
    spelling + ([COMMA] + (HashCounter(lib, counter) + tail))
  }

  lemma TextAscii(lib: Library, spelling: Bytes, counter: nat, tail: Bytes)
    requires Ascii(tail) && Ascii(spelling)
    ensures Ascii(Text(lib, spelling, counter, tail))
  {
    hide Hex;
    hide Decimal;
    var h := HashCounter(lib, counter);
    HexPlain(lib.digest(Decimal(counter)));
    AsciiAppend(h, tail);
    AsciiAppend([COMMA], h + tail);
    AsciiAppend(spelling, [COMMA] + (h + tail));
  }

  /** Whatever parses is digits after at most a sign. */
  lemma ParsedPlain(s: Bytes)
    requires Parse(s).Some?
    ensures Ascii(s) && forall i | 0 <= i < |s| :: s[i] != COMMA
  {
    if |s| > 1 && s[0] == PLUS {
      DigitsAscii(s[1..]);
      forall i | 0 <= i < |s| ensures s[i] < 128 && s[i] != COMMA {
        if i > 0 { assert s[i] == s[1..][i - 1]; }
      }
    } else {
      DigitsAscii(s);
    }
  }

  lemma DigitsAscii(s: Bytes)
    requires Digits(s)
    ensures Ascii(s) && forall i | 0 <= i < |s| :: s[i] != COMMA
  {
    forall i | 0 <= i < |s| ensures s[i] < 128 && s[i] != COMMA {
      assert IsDigit(s[i]);
    }
  }

  lemma AsciiAppend(a: Bytes, b: Bytes)
    requires Ascii(a) && Ascii(b)
    ensures Ascii(a + b)
  {
  }

  /** A first part without commas ends at the first comma. */
  lemma IndexOfEnd(a: Bytes, b: Bytes)
    requires forall i | 0 <= i < |a| :: a[i] != COMMA
    requires b == [] || b[0] == COMMA
    ensures IndexOf(a + b, COMMA) == |a| && (a + b)[..|a|] == a && (a + b)[|a|..] == b
  {
    hide IndexOf;
    var i := IndexOf(a + b, COMMA);
    assert forall k | 0 <= k < |a| :: (a + b)[k] == a[k];
    if b != [] { assert (a + b)[|a|] == COMMA; }
  }

  lemma ReadsText(lib: Library, spelling: Bytes, counter: nat, tail: Bytes)
    requires Parse(spelling) == Some(counter) && (tail == [] || tail[0] == COMMA)
    ensures var text := Text(lib, spelling, counter, tail);
            var i := IndexOf(text, COMMA);
            && i < |text| && text[..i] == spelling
            && text[i + 1..][..IndexOf(text[i + 1..], COMMA)] == HashCounter(lib, counter)
  {
    hide Parse;
    hide IndexOf;
    hide Hex;
    hide Decimal;
    var h := HashCounter(lib, counter);
    ParsedPlain(spelling);
    HexPlain(lib.digest(Decimal(counter)));
    IndexOfEnd(spelling, [COMMA] + (h + tail));
    IndexOfEnd(h, tail);
    assert Text(lib, spelling, counter, tail)[|spelling| + 1..] == h + tail;
  }

  /**
   The checker accepts every counter that fits, in any spelling that parses: the bytes around the
   text are not looked at, and neither is what follows a second comma.
   */
  lemma AcceptsText(lib: Library, argument: Bytes, spelling: Bytes, counter: nat, open: byte, tail: Bytes, close: byte)
    requires Lawful(lib) && argument != [] && Parse(spelling) == Some(counter) && Matches(lib, argument, counter)
    requires Ascii(tail) && (tail == [] || tail[0] == COMMA)
    ensures TestResult(lib, argument, [open] + Text(lib, spelling, counter, tail) + [close]) == Accepted
  {
    hide IndexOf;
    hide Parse;
    hide Contains;
    hide Text;
    hide HashCounter;
    var text := Text(lib, spelling, counter, tail);
    var result := [open] + text + [close];
    assert result[1..|result| - 1] == text;
    ParsedPlain(spelling);
    TextAscii(lib, spelling, counter, tail);
    ReadsText(lib, spelling, counter, tail);
  }

  lemma AcceptsPrinted(lib: Library, argument: Bytes, counter: nat)
    requires Lawful(lib) && argument != [] && counter < TWO32 && Matches(lib, argument, counter)
    ensures TestResult(lib, argument, Format(lib, counter)) == Accepted
  {
    hide TestResult;
    hide Matches;
    hide Parse;
    hide Decimal;
    hide HashCounter;
    PrintParse(counter);
    AcceptsText(lib, argument, Decimal(counter), counter, 40, [], 41);
    assert Format(lib, counter) == [40] + Text(lib, Decimal(counter), counter, []) + [41];
  }

  /** Whatever `my_run` returns, the checker accepts. */
  lemma RunAccepted(lib: Library, argument: Bytes, result: Bytes)
    requires Lawful(lib) && argument != []
    requires exists c: nat :: First(lib, argument, c) && result == Format(lib, c)
    ensures TestResult(lib, argument, result) == Accepted
  {
    hide TestResult;
    hide Matches;
    var c: nat :| First(lib, argument, c) && result == Format(lib, c);
    AcceptsPrinted(lib, argument, c);
  }

  /** Nothing is accepted that no run could have found: an accepted result exists exactly when a run returns one. */
  lemma AcceptedIffSolvable(lib: Library, argument: Bytes)
    requires Lawful(lib) && argument != []
    ensures (exists result :: TestResult(lib, argument, result) == Accepted) <==> Solvable(lib, argument)
  {
    hide TestResult;
    hide Matches;
    if result :| TestResult(lib, argument, result) == Accepted {
      AcceptedMatches(lib, argument, result);
    }
    if c :| 0 <= c < TWO32 && Matches(lib, argument, c) {
      AcceptsPrinted(lib, argument, c);
    }
  }

  lemma AcceptedMatches(lib: Library, argument: Bytes, result: Bytes)
    requires TestResult(lib, argument, result) == Accepted
    ensures argument != [] && Solvable(lib, argument)
  {
    var text := lib.lossy(result[1..|result| - 1]);
    assert Matches(lib, argument, Parse(text[..IndexOf(text, COMMA)]).value);
  }

  /** A text that names a fitting counter in some spelling that parses, with its hash. */
  ghost predicate Names(lib: Library, argument: Bytes, text: Bytes, spelling: Bytes, counter: nat, tail: Bytes) {
    && text == Text(lib, spelling, counter, tail) && (tail == [] || tail[0] == COMMA)
    && Parse(spelling) == Some(counter) && Matches(lib, argument, counter)
  }

  ghost predicate NamesOne(lib: Library, argument: Bytes, text: Bytes) {
    exists spelling, counter: nat, tail :: Names(lib, argument, text, spelling, counter, tail)
  }

  /** For an ASCII text, the results accepted are exactly those that name a fitting counter. */
  lemma AcceptsIff(lib: Library, argument: Bytes, result: Bytes)
    requires Lawful(lib) && |result| >= 2 && Ascii(result[1..|result| - 1])
    ensures TestResult(lib, argument, result) == Accepted
            <==> argument != [] && NamesOne(lib, argument, result[1..|result| - 1])
  {
    hide TestResult;
    hide Names;
    var text := result[1..|result| - 1];
    if TestResult(lib, argument, result) == Accepted {
      AcceptedNames(lib, argument, result);
    }
    if spelling, counter: nat, tail :| argument != [] && Names(lib, argument, text, spelling, counter, tail) {
      NamesAccepted(lib, argument, result, spelling, counter, tail);
    }
  }

  lemma NamesAccepted(lib: Library, argument: Bytes, result: Bytes, spelling: Bytes, counter: nat, tail: Bytes)
    requires Lawful(lib) && |result| >= 2 && Ascii(result[1..|result| - 1]) && argument != []
    requires Names(lib, argument, result[1..|result| - 1], spelling, counter, tail)
    ensures TestResult(lib, argument, result) == Accepted
  {
    hide TestResult;
    hide Parse;
    hide Matches;
    hide HashCounter;
    var text := result[1..|result| - 1];
    forall i | 0 <= i < |tail| ensures tail[i] < 128 {
      assert tail[i] == text[|text| - |tail| + i];
    }
    AcceptsText(lib, argument, spelling, counter, result[0], tail, result[|result| - 1]);
    assert result == [result[0]] + text + [result[|result| - 1]];
  }

  lemma AcceptedNames(lib: Library, argument: Bytes, result: Bytes)
    requires Lawful(lib) && |result| >= 2 && Ascii(result[1..|result| - 1])
    requires TestResult(lib, argument, result) == Accepted
    ensures argument != []
    ensures NamesOne(lib, argument, result[1..|result| - 1])
  {
    hide Parse;
    hide HashCounter;
    hide Contains;
    hide Names;
    var text := result[1..|result| - 1];
    assert lib.lossy(text) == text;
    Parts(lib, argument, text);
  }

  lemma Parts(lib: Library, argument: Bytes, text: Bytes)
    requires argument != [] && IndexOf(text, COMMA) < |text| && Parse(text[..IndexOf(text, COMMA)]).Some?
    requires var i := IndexOf(text, COMMA);
             var counter, rest := Parse(text[..i]).value, text[i + 1..];
             HashCounter(lib, counter) == rest[..IndexOf(rest, COMMA)] && Matches(lib, argument, counter)
    ensures NamesOne(lib, argument, text)
  {
    hide Parse;
    hide HashCounter;
    hide Matches;
    hide IndexOf;
    hide Text;
    hide Names;
    var i := IndexOf(text, COMMA);
    var rest := text[i + 1..];
    var k := IndexOf(rest, COMMA);
    var counter := Parse(text[..i]).value;
    TextOf(lib, text, i, counter, k);
    TailOf(rest, k);
    NamesText(lib, argument, text, text[..i], counter, rest[k..]);
  }

  lemma NamesText(lib: Library, argument: Bytes, text: Bytes, spelling: Bytes, counter: nat, tail: Bytes)
    requires text == Text(lib, spelling, counter, tail) && (tail == [] || tail[0] == COMMA)
    requires Parse(spelling) == Some(counter) && Matches(lib, argument, counter)
    ensures NamesOne(lib, argument, text)
  {
    hide Text;
    hide Parse;
    hide Matches;
    assert Names(lib, argument, text, spelling, counter, tail);
  }

  lemma TextOf(lib: Library, text: Bytes, i: nat, counter: nat, k: nat)
    requires i < |text| && text[i] == COMMA && k <= |text| - i - 1
    requires HashCounter(lib, counter) == text[i + 1..][..k]
    ensures text == Text(lib, text[..i], counter, text[i + 1..][k..])
  {
    hide HashCounter;
    CutAt(text, i);
    assert text[i + 1..] == text[i + 1..][..k] + text[i + 1..][k..];
  }

  lemma TailOf(rest: Bytes, k: nat)
    requires k <= |rest| && (k < |rest| ==> rest[k] == COMMA)
    ensures rest[k..] == [] || rest[k..][0] == COMMA
  {
  }

  lemma CutAt(text: Bytes, i: nat)
    requires i < |text|
    ensures text == text[..i] + ([text[i]] + text[i + 1..])
  {
  }
}
