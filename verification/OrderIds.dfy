// Shared option type.
module Options {
  datatype Option<+T> = None | Some(value: T)
}

// The client order ids the auto-trade engine prints ("sug-N", "sug-N-rK") and the
// reconciliation job parses back.
module OrderIds {
  import opened Options

  // The zeros of the blocks of ten decimal digits beyond ASCII, as of Unicode 15. The pattern
  // takes them for digits, and int() reads them.
  const OTHER_ZEROS: seq<int> := [
    0x660, 0x6F0, 0x7C0, 0x966, 0x9E6, 0xA66, 0xAE6, 0xB66, 0xBE6, 0xC66, 0xCE6, 0xD66, 0xDE6, 0xE50, 0xED0,
    0xF20, 0x1040, 0x1090, 0x17E0, 0x1810, 0x1946, 0x19D0, 0x1A80, 0x1A90, 0x1B50, 0x1BB0, 0x1C40, 0x1C50,
    0xA620, 0xA8D0, 0xA900, 0xA9D0, 0xA9F0, 0xAA50, 0xABF0, 0xFF10, 0x104A0, 0x10D30, 0x11066, 0x110F0,
    0x11136, 0x111D0, 0x112F0, 0x11450, 0x114D0, 0x11650, 0x116C0, 0x11730, 0x118E0, 0x11950, 0x11C50,
    0x11D50, 0x11DA0, 0x11F50, 0x16A60, 0x16AC0, 0x16B50, 0x1D7CE, 0x1D7D8, 0x1D7E2, 0x1D7EC, 0x1D7F6,
    0x1E140, 0x1E2F0, 0x1E4F0, 0x1E950, 0x1FBF0
  ]

  predicate InBlock(code: int, i: nat)
    requires i < |OTHER_ZEROS|
  {
    OTHER_ZEROS[i] <= code < OTHER_ZEROS[i] + 10
  }

  // The first block that has the character, |OTHER_ZEROS| if none does.
  function Block(code: int, i: nat := 0): (r: nat)
    requires i <= |OTHER_ZEROS|
    ensures i <= r <= |OTHER_ZEROS|
    ensures r < |OTHER_ZEROS| ==> InBlock(code, r)
    ensures forall j :: i <= j < r ==> !InBlock(code, j)
    decreases |OTHER_ZEROS| - i
  {
    if i == |OTHER_ZEROS| || InBlock(code, i) then i else Block(code, i + 1)
  }

  // What a decimal digit stands for; None for any other character.
  function DigitOf(c: char): (d: Option<nat>)
    ensures d.Some? ==> d.value < 10
  {
    var code := c as int;
    if '0' <= c <= '9' then Some(code - '0' as int)
    else if code < 0x660 || Block(code) == |OTHER_ZEROS| then None
    else Some(code - OTHER_ZEROS[Block(code)])
  }

  predicate IsDigit(c: char) {
    DigitOf(c).Some?
  }

  ghost predicate AllDigits(s: string) {
    forall i :: 0 <= i < |s| ==> IsDigit(s[i])
  }

  function DigitChar(d: nat): (c: char)
    requires d < 10
    ensures DigitOf(c) == Some(d)
  {
    ('0' as int + d) as char
  }

  // Decimal printing of a natural number, as an f-string does it.
  function Decimal(n: nat): string {
    if n < 10 then [DigitChar(n)] else Decimal(n / 10) + [DigitChar(n % 10)]
  }

  // int() of a run of digits; other characters count as zero and never reach it.
  function Value(s: string): nat {
    if s == "" then 0
    else
      var c := s[|s| - 1];
      10 * Value(s[..|s| - 1]) + (if IsDigit(c) then DigitOf(c).value else 0)
  }

  // Length of the longest prefix of digits.
  function DigitRun(s: string): (n: nat)
    ensures n <= |s| && AllDigits(s[..n])
    ensures n < |s| ==> !IsDigit(s[n])
  {
    if s == "" || !IsDigit(s[0]) then 0 else 1 + DigitRun(s[1..])
  }

  // The id of one submission: retry 0 is the first attempt.
  function Print(sug: nat, retry: nat): string {
    if retry == 0 then "sug-" + Decimal(sug) else "sug-" + Decimal(sug) + "-r" + Decimal(retry)
  }

  // `$` also matches before one trailing newline.
  predicate AtEnd(s: string) {
    s == "" || s == "\n"
  }

  function ParseSuggestionId(s: string): Option<nat> {
    if !("sug-" <= s) then None
    else
      var t := s[4..];
      var d := DigitRun(t);
      var rest := t[d..];
      if d == 0 then None
      else if AtEnd(rest) then Some(Value(t[..d]))
      else if "-r" <= rest && DigitRun(rest[2..]) > 0 && AtEnd(rest[2..][DigitRun(rest[2..])..]) then
          Some(Value(t[..d]))
      else None
  }

  // The language of the pattern, written as a grammar.
  ghost predicate Tail(s: string, retry: string, end: string) {
    && AtEnd(end)
    && (s == end || (retry != "" && AllDigits(retry) && s == "-r" + retry + end))
  }

  ghost predicate Denotes(s: string, n: nat, ds: string, retry: string, end: string) {
    && ds != "" && AllDigits(ds) && Value(ds) == n
    && "sug-" + ds <= s
    && Tail(s[4 + |ds|..], retry, end)
  }

  lemma {:induction false} DecimalValue(n: nat)
    ensures Value(Decimal(n)) == n && Decimal(n) != "" && AllDigits(Decimal(n))
  {
    if n >= 10 {
      DecimalValue(n / 10);
      var s := Decimal(n);
      assert s[..|s| - 1] == Decimal(n / 10);
    } else {
      var s := Decimal(n);
      assert s[..0] == "";
    }
  }

  lemma DecimalInjective(m: nat, n: nat)
    requires Decimal(m) == Decimal(n)
    ensures m == n
  {
    DecimalValue(m);
    DecimalValue(n);
  }

  // A digit run followed by a non-digit is found exactly.
  lemma {:induction false} DigitRunOf(ds: string, rest: string)
    requires AllDigits(ds)
    requires rest == "" || !IsDigit(rest[0])
    ensures DigitRun(ds + rest) == |ds|
  {
    if ds == "" {
      assert ds + rest == rest;
    } else {
      assert (ds + rest)[1..] == ds[1..] + rest;
      assert IsDigit(ds[0]);
      DigitRunOf(ds[1..], rest);
    }
  }

  // The parser accepts exactly the grammar, with the number the grammar denotes.
  lemma ParserMeetsGrammar(s: string, n: nat)
    ensures ParseSuggestionId(s) == Some(n) <==> exists ds, retry, end :: Denotes(s, n, ds, retry, end)
  {
    if ParseSuggestionId(s) == Some(n) {
      var t := s[4..];
      var d := DigitRun(t);
      var rest := t[d..];
      assert s == "sug-" + t[..d] + rest;
      if AtEnd(rest) {
        assert s[4 + d..] == rest;
        assert Denotes(s, n, t[..d], "", rest);
      } else {
        var r := DigitRun(rest[2..]);
        assert rest == "-r" + rest[2..][..r] + rest[2..][r..];
        assert s[4 + d..] == rest;
        assert Denotes(s, n, t[..d], rest[2..][..r], rest[2..][r..]);
      }
    }
    if ds, retry, end :| Denotes(s, n, ds, retry, end) {
      GrammarParses(s, n, ds, retry, end);
    }
  }

  lemma GrammarParses(s: string, n: nat, ds: string, retry: string, end: string)
    requires Denotes(s, n, ds, retry, end)
    ensures ParseSuggestionId(s) == Some(n)
  {
    var rest := s[4 + |ds|..];
    assert s[..4 + |ds|] == "sug-" + ds;
    assert s[4..] == ds + rest;
    DigitRunOf(ds, rest);
    assert s[4..][..|ds|] == ds;
    assert s[4..][|ds|..] == rest;
    if !AtEnd(rest) {
      assert rest[2..] == retry + end;
      DigitRunOf(retry, end);
      assert rest[2..][|retry|..] == end;
    }
  }

  // Parsing undoes printing, for every suggestion and retry count.
  lemma ParsePrint(sug: nat, retry: nat)
    ensures ParseSuggestionId(Print(sug, retry)) == Some(sug)
  {
    DecimalValue(sug);
    DecimalValue(retry);
    var s := Print(sug, retry);
    if retry == 0 {
      assert s[4 + |Decimal(sug)|..] == "";
      GrammarParses(s, sug, Decimal(sug), "", "");
    } else {
      assert s[4 + |Decimal(sug)|..] == "-r" + Decimal(retry) + "";
      GrammarParses(s, sug, Decimal(sug), Decimal(retry), "");
    }
  }

  // Two submissions share a printed id only if they are the same suggestion and retry.
  lemma PrintInjective(m: nat, j: nat, n: nat, k: nat)
    requires Print(m, j) == Print(n, k)
    ensures m == n && j == k
  {
    ParsePrint(m, j);
    ParsePrint(n, k);
    var p := 4 + |Decimal(n)|;
    if j != 0 {
      assert Print(m, j)[p + 2..] == Decimal(j);
    }
    if k != 0 {
      assert Print(n, k)[p + 2..] == Decimal(k);
    }
    if j != 0 && k != 0 {
      DecimalInjective(j, k);
    } else {
      DecimalValue(j);
      DecimalValue(k);
    }
  }
}
