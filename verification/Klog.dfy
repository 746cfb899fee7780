/** klog.c: a ring of lines that shows the end of an unbounded log. */
module Klog {
  const KLOG_LINES := 64
  const KLOG_LINE_SIZE := 42

  // ---- the unbounded log --------------------------------------------------

  /** Where the first line of text ends: at its first newline, or where it is full, or at the end. */
  function LineEnd(text: string): (n: nat)
    ensures n <= |text| && n <= KLOG_LINE_SIZE
    ensures forall i :: 0 <= i < n ==> text[i] != '\n'
    ensures n < |text| && n < KLOG_LINE_SIZE ==> text[n] == '\n'
  {
    EndFrom(text, 0)
  }

  function EndFrom(text: string, i: nat): (n: nat)
    requires i <= |text| && i <= KLOG_LINE_SIZE
    ensures i <= n <= |text| && n <= KLOG_LINE_SIZE
    ensures forall j :: i <= j < n ==> text[j] != '\n'
    ensures n < |text| && n < KLOG_LINE_SIZE ==> text[n] == '\n'
    decreases |text| - i
  {
    if i == |text| || i == KLOG_LINE_SIZE || text[i] == '\n' then i else EndFrom(text, i + 1)
  }

  /** The lines of text, split at newlines and wrapped where they are full; the last is the one being written. */
  function Layout(text: string): (lines: seq<string>)
    ensures lines != [] && |lines[|lines| - 1]| < KLOG_LINE_SIZE
    decreases |text|
  {
    var n := LineEnd(text);
    if n == KLOG_LINE_SIZE then [text[..n]] + Layout(text[n..])
    else if n < |text| then [text[..n]] + Layout(text[n + 1..])
    else [text]
  }

  lemma LayoutUnfold(text: string)
    ensures var n := LineEnd(text);
      Layout(text) ==
        if n == KLOG_LINE_SIZE then [text[..n]] + Layout(text[n..])
        else if n < |text| then [text[..n]] + Layout(text[n + 1..])
        else [text]
  {
  }

  /** No line is longer than a row, and none holds a newline. */
  lemma {:induction false} LinesFit(text: string, i: nat)
    requires i < |Layout(text)|
    ensures |Layout(text)[i]| <= KLOG_LINE_SIZE && '\n' !in Layout(text)[i]
    decreases |text|
  {
    hide Layout, LineEnd;
    LayoutUnfold(text);
    var n := LineEnd(text);
    if i == 0 {
      assert Layout(text)[0] == text[..n];
    } else {
      if n == KLOG_LINE_SIZE {
        LinesFit(text[n..], i - 1);
      } else if n < |text| {
        LinesFit(text[n + 1..], i - 1);
      }
    }
  }

  /** Lines put together again: a newline after each but the last, unless the line is full. */
  function Joined(lines: seq<string>): string
    requires lines != []
  {
    if |lines| == 1 then lines[0] else lines[0] + (if |lines[0]| == 42 then "" else "\n") + Joined(lines[1..])
  }

  lemma JoinedCons(line: string, lines: seq<string>)
    requires lines != []
    ensures Joined([line] + lines) == line + (if |line| == 42 then "" else "\n") + Joined(lines)
  {
    assert ([line] + lines)[1..] == lines;
  }

  lemma JoinedOne(line: string)
    ensures Joined([line]) == line
  {
  }

  /** Nothing printed is lost or out of place: the lines put together give the text back. */
  lemma {:induction false} LayoutRoundTrip(text: string)
    ensures Joined(Layout(text)) == text
    decreases |text|
  {
    hide Layout, LineEnd, Joined;
    LayoutUnfold(text);
    var n := LineEnd(text);
    if n == KLOG_LINE_SIZE {
      LayoutRoundTrip(text[n..]);
      JoinedCons(text[..n], Layout(text[n..]));
      assert text == text[..n] + text[n..];
    } else if n < |text| {
      LayoutRoundTrip(text[n + 1..]);
      JoinedCons(text[..n], Layout(text[n + 1..]));
      assert text == text[..n] + "\n" + text[n + 1..];
    } else {
      JoinedOne(text);
    }
  }

  /** Writing one more character: it ends a line, fills one, or lengthens the last. */
  function Next(lines: seq<string>, c: char): seq<string>
    requires lines != []
  {
    var last := lines[|lines| - 1];
    if c == '\n' then lines + [""]
    else if |last| + 1 >= KLOG_LINE_SIZE then lines[..|lines| - 1] + [last + [c], ""]
    else lines[..|lines| - 1] + [last + [c]]
  }

  lemma LineEndIs(text: string, n: nat)
    requires n <= |text| && n <= KLOG_LINE_SIZE && forall i :: 0 <= i < n ==> text[i] != '\n'
    requires n < |text| && n < KLOG_LINE_SIZE ==> text[n] == '\n'
    ensures LineEnd(text) == n
  {
  }

  lemma NextCons(line: string, lines: seq<string>, c: char)
    requires lines != []
    ensures Next([line] + lines, c) == [line] + Next(lines, c)
  {
    var all := [line] + lines;
    assert all[|all| - 1] == lines[|lines| - 1];
    assert all[..|all| - 1] == [line] + lines[..|lines| - 1];
  }

  /** A full first line, or one with a newline, stays as it is. */
  lemma LayoutHead(text: string, c: char)
    requires LineEnd(text) < |text| || LineEnd(text) == KLOG_LINE_SIZE
    ensures var n := LineEnd(text);
      LineEnd(text + [c]) == n && (text + [c])[..n] == text[..n] && (text + [c])[n..] == text[n..] + [c]
      && (n < |text| ==> (text + [c])[n + 1..] == text[n + 1..] + [c])
  {
    LineEndIs(text + [c], LineEnd(text));
  }

  /** Text that is all one unfinished line, and a character that ends it, fills it or lengthens it. */
  lemma LayoutLast(text: string, c: char)
    requires LineEnd(text) == |text| < KLOG_LINE_SIZE
    ensures Layout(text) == [text] && Layout(text + [c]) == Next([text], c)
  {
    hide Layout, LineEnd;
    LayoutUnfold(text);
    if c == '\n' {
      LastEnds(text);
    } else {
      LastGrows(text, c);
    }
  }

  lemma LastEnds(text: string)
    requires LineEnd(text) == |text| < KLOG_LINE_SIZE
    ensures Layout(text + ['\n']) == [text, ""]
  {
    hide Layout, LineEnd;
    var more, n := text + ['\n'], |text|;
    LineEndIs(more, n);
    LayoutUnfold(more);
    LayoutNone(more[n + 1..]);
    assert more[..n] == text;
  }

  lemma LastGrows(text: string, c: char)
    requires LineEnd(text) == |text| < KLOG_LINE_SIZE && c != '\n'
    ensures Layout(text + [c]) == if |text| + 1 == KLOG_LINE_SIZE then [text + [c], ""] else [text + [c]]
  {
    hide Layout, LineEnd;
    var more := text + [c];
    LineEndIs(more, |more|);
    LayoutUnfold(more);
    if |more| == KLOG_LINE_SIZE {
      LayoutNone(more[|more|..]);
      assert more[..|more|] == more;
    }
  }

  lemma LayoutNone(text: string)
    requires |text| == 0
    ensures Layout(text) == [text]
  {
    LineEndIs(text, 0);
  }

  /** The layout of a growing text grows at its end only. */
  lemma {:induction false} LayoutNext(text: string, c: char)
    ensures Layout(text + [c]) == Next(Layout(text), c)
    decreases |text|
  {
    hide LineEnd;
    var n := LineEnd(text);
    if n == KLOG_LINE_SIZE {
      LayoutHead(text, c);
      LayoutNext(text[n..], c);
      NextCons(text[..n], Layout(text[n..]), c);
    } else if n < |text| {
      LayoutHead(text, c);
      LayoutNext(text[n + 1..], c);
      NextCons(text[..n], Layout(text[n + 1..]), c);
    } else {
      LayoutLast(text, c);
    }
  }

  // ---- the ring -----------------------------------------------------------

  /** The row of line number i. */
  function Row(i: nat): (r: nat) ensures r < KLOG_LINES { i % KLOG_LINES }

  /** What pads line number i: the first line was never cleaned, only loaded as zeros. */
  function Fill(i: nat): char { if i == 0 then '\0' else ' ' }

  /** Row r of the buffer shows line number i. */
  ghost predicate Shows(b: array2<char>, r: nat, line: string, i: nat)
    requires b.Length0 == KLOG_LINES && b.Length1 == KLOG_LINE_SIZE && r < KLOG_LINES
    reads b
  {
    |line| <= KLOG_LINE_SIZE
    && forall j :: 0 <= j < KLOG_LINE_SIZE ==> b[r, j] == if j < |line| then line[j] else Fill(i)
  }

  class Klog {
    var klog_line_index: nat
    var klog_char_index: nat
    const klog_buffer: array2<char>
    ghost var text: string  // everything ever printed

    ghost predicate Valid()
      reads this, klog_buffer
    {
      var lines := Layout(text);
      var last := |lines| - 1;
      && klog_buffer.Length0 == KLOG_LINES && klog_buffer.Length1 == KLOG_LINE_SIZE
      && klog_line_index == Row(last) && klog_char_index == |lines[last]|
      && (forall i: nat {:trigger lines[i]} :: last < i + KLOG_LINES && i <= last ==>
            Shows(klog_buffer, Row(i), lines[i], i))
    }

    constructor ()
      ensures Valid() && text == "" && fresh(klog_buffer)
    {
      klog_line_index, klog_char_index := 0, 0;
      klog_buffer := new char[KLOG_LINES, KLOG_LINE_SIZE]((_, _) => '\0');
      text := "";
    }

    /** next_line: on to the next row, which is cleaned. */
    method NextLine()
      requires klog_buffer.Length0 == KLOG_LINES && klog_buffer.Length1 == KLOG_LINE_SIZE
      modifies `klog_line_index, `klog_char_index, klog_buffer
      ensures klog_line_index == (old(klog_line_index) + 1) % KLOG_LINES && klog_char_index == 0
      ensures forall j :: 0 <= j < KLOG_LINE_SIZE ==> klog_buffer[klog_line_index, j] == ' '
      ensures forall r, j :: 0 <= r < KLOG_LINES && 0 <= j < KLOG_LINE_SIZE && r != klog_line_index ==>
        klog_buffer[r, j] == old(klog_buffer[r, j])
    {
      klog_line_index := (klog_line_index + 1) % KLOG_LINES;
      klog_char_index := 0;
      var i := 0;
      while i < KLOG_LINE_SIZE
        modifies klog_buffer
        invariant 0 <= i <= KLOG_LINE_SIZE
        invariant forall j :: 0 <= j < i ==> klog_buffer[klog_line_index, j] == ' '
        invariant forall r, j :: 0 <= r < KLOG_LINES && 0 <= j < KLOG_LINE_SIZE && r != klog_line_index ==>
          klog_buffer[r, j] == old(klog_buffer[r, j])
      {
        klog_buffer[klog_line_index, i] := ' ';
        i := i + 1;
      }
    }

    /** next_char: on to the next column, and to the next row if there is none. */
    method NextChar()
      requires klog_buffer.Length0 == KLOG_LINES && klog_buffer.Length1 == KLOG_LINE_SIZE
      modifies `klog_line_index, `klog_char_index, klog_buffer
      ensures old(klog_char_index) + 1 < KLOG_LINE_SIZE ==>
        && klog_char_index == old(klog_char_index) + 1 && klog_line_index == old(klog_line_index)
        && forall r, j :: 0 <= r < KLOG_LINES && 0 <= j < KLOG_LINE_SIZE ==> klog_buffer[r, j] == old(klog_buffer[r, j])
      ensures old(klog_char_index) + 1 >= KLOG_LINE_SIZE ==>
        && klog_line_index == (old(klog_line_index) + 1) % KLOG_LINES && klog_char_index == 0
        && (forall j :: 0 <= j < KLOG_LINE_SIZE ==> klog_buffer[klog_line_index, j] == ' ')
        && forall r, j :: 0 <= r < KLOG_LINES && 0 <= j < KLOG_LINE_SIZE && r != klog_line_index ==>
             klog_buffer[r, j] == old(klog_buffer[r, j])
    {
      klog_char_index := klog_char_index + 1;
      if klog_char_index >= KLOG_LINE_SIZE {
        klog_char_index := 0;
        NextLine();
      }
    }

    /** A character into the current cell, and next_char. */
    method Put(c: char)
      requires Valid() && c != '\n'
      modifies this, klog_buffer
      ensures Valid() && text == old(text) + [c]
    {
      ghost var lines := Layout(text);
      LayoutNext(text, c);
      hide Layout, Row;
      klog_buffer[klog_line_index, klog_char_index] := c;
      NextChar();
      text := text + [c];
      RowsApart(|lines| - 1);
      RowsApart(|Layout(text)| - 1);
    }

    /** A newline: next_line. */
    method Break()
      requires Valid()
      modifies this, klog_buffer
      ensures Valid() && text == old(text) + ['\n']
    {
      ghost var lines := Layout(text);
      LayoutNext(text, '\n');
      hide Layout, Row;
      NextLine();
      text := text + ['\n'];
      RowsApart(|lines|);
    }

    /** klog_print; str is what stands before the terminator. */
    method KlogPrint(str: string)
      requires Valid()
      modifies this, klog_buffer
      ensures Valid() && text == old(text) + str
    {
      hide Klog.Valid, Layout;
      var i := 0;
      while i < |str|
        invariant 0 <= i <= |str| && Valid() && text == old(text) + str[..i]
      {
        if str[i] == '\n' {
          Break();
        } else {
          Put(str[i]);
        }
        i := i + 1;
      }
      assert str[..i] == str;
    }

    /** klog_print_dec: below ten a zero and the digit; else the digits, least significant first. */
    method KlogPrintDec(num: nat)
      requires Valid()
      modifies this, klog_buffer
      ensures Valid() && text == old(text) + DecDigits(num)
    {
      hide Klog.Valid, Layout, Digits, DecDigits;
      DecIs(num);
      if num >= 10 {
        var rest := num;
        var more := true;
        while more
          invariant Valid() && (more ==> text + Digits(rest, 10) == old(text) + Digits(num, 10))
          invariant !more ==> text == old(text) + Digits(num, 10)
          decreases more, rest
        {
          DigitsRound(text, rest, 10);
          Put(DIGITS[rest % 10]);
          rest := rest / 10;
          more := rest > 0;
        }
      } else {
        var buff := num % 10;
        var rest := num / 10;
        Put(DIGITS[rest % 10]);
        Put(DIGITS[buff]);
      }
    }

    /** klog_print_hex: the digits of num, least significant first. */
    method KlogPrintHex(num: nat)
      requires Valid()
      modifies this, klog_buffer
      ensures Valid() && text == old(text) + Digits(num, 16)
    {
      hide Klog.Valid, Layout, Digits;
      var rest := num;
      var more := true;
      while more
        invariant Valid() && (more ==> text + Digits(rest, 16) == old(text) + Digits(num, 16))
        invariant !more ==> text == old(text) + Digits(num, 16)
        decreases more, rest
      {
        DigitsRound(text, rest, 16);
        Put(DIGITS[rest % 16]);
        rest := rest / 16;
        more := rest > 0;
      }
    }

    /** Each of the last 64 lines of everything printed is in its row, padded to the full width. */
    lemma LastLinesShown(i: nat, j: nat)
      requires Valid() && i < |Layout(text)| && |Layout(text)| <= i + 64 && j < 42
      ensures klog_buffer.Length0 == 64 && klog_buffer.Length1 == 42
      ensures klog_buffer[i % 64, j] ==
        if j < |Layout(text)[i]| then Layout(text)[i][j] else if i == 0 then '\0' else ' '
    {
      assert Shows(klog_buffer, Row(i), Layout(text)[i], i);
    }
  }

  lemma RowApart(i: nat, l: nat)
    requires i < l < i + KLOG_LINES
    ensures Row(i) != Row(l)
  {
    assert i == KLOG_LINES * (i / KLOG_LINES) + Row(i) && l == KLOG_LINES * (l / KLOG_LINES) + Row(l);
  }

  lemma RowNext(l: nat)
    ensures l > 0 ==> Row(l) == (Row(l - 1) + 1) % KLOG_LINES
  {
  }

  /** Line numbers less than 64 apart have different rows. */
  lemma RowsApart(l: nat)
    ensures forall i: nat {:trigger Row(i)} :: l < i + KLOG_LINES && i < l ==> Row(i) != Row(l)
    ensures l > 0 ==> Row(l) == (Row(l - 1) + 1) % KLOG_LINES
  {
    hide Row;
    RowNext(l);
    forall i: nat | i < l < i + KLOG_LINES
      ensures Row(i) != Row(l)
    {
      RowApart(i, l);
    }
  }

  // ---- numbers ------------------------------------------------------------

  const DIGITS := "0123456789ABCDEF"

  /** The digits of num, the least significant first. */
  function Digits(num: nat, base: nat): (s: string)
    requires base == 10 || base == 16
    ensures s != [] && '\n' !in s
  {
    var d := DIGITS[num % base];
    if num / base == 0 then [d] else [d] + Digits(num / base, base)
  }

  lemma DivMod(num: nat, base: nat)
    requires base == 10 || base == 16
    ensures num / base >= 0 && 0 <= num % base < 16 && num == num % base + base * (num / base)
    ensures num / base != 0 ==> num / base < num
  {
    if base == 10 {
      assert num == num % 10 + 10 * (num / 10);
    } else {
      assert num == num % 16 + 16 * (num / 16);
    }
  }

  lemma DigitsUnfold(num: nat, base: nat)
    requires base == 10 || base == 16
    ensures num / base >= 0 && num % base < 16
    ensures num / base == 0 ==> Digits(num, base) == [DIGITS[num % base]]
    ensures num / base != 0 ==> num / base < num && Digits(num, base) == [DIGITS[num % base]] + Digits(num / base, base)
  {
    DivMod(num, base);
  }

  /** One round of the loop leaves the rest of the digits to be written. */
  lemma DigitsRound(text: string, num: nat, base: nat)
    requires base == 10 || base == 16
    ensures num / base >= 0 && num % base < 16
    ensures num / base == 0 ==> Digits(num, base) == [DIGITS[num % base]]
    ensures num / base != 0 ==>
      num / base < num && text + [DIGITS[num % base]] + Digits(num / base, base) == text + Digits(num, base)
  {
    DigitsUnfold(num, base);
    hide Digits;
  }

  /** What klog_print_dec writes. */
  function DecDigits(num: nat): string { if num < 10 then ['0', DIGITS[num]] else Digits(num, 10) }

  lemma DecIs(num: nat)
    ensures num >= 10 ==> DecDigits(num) == Digits(num, 10)
    ensures num < 10 ==>
      DIGITS[num / 10 % 10] == '0' && num % 10 == num
      && forall s: string :: s + ['0'] + [DIGITS[num]] == s + DecDigits(num)
  {
  }

  function DigitValue(c: char): (v: nat) {
    if '0' <= c <= '9' then (c - '0') as nat
    else if 'A' <= c <= 'F' then (c - 'A') as nat + 10
    else 0
  }

  /** The number whose digits these are, the least significant first. */
  function Value(s: string, base: nat): nat {
    if s == "" then 0 else DigitValue(s[0]) + base * Value(s[1..], base)
  }

  lemma ValueUnfold(c: char, s: string, base: nat)
    ensures Value([c] + s, base) == DigitValue(c) + base * Value(s, base)
  {
    assert ([c] + s)[1..] == s;
  }

  /** Read least significant first, the digits give the number back. */
  lemma {:induction false} DigitsRoundTrip(num: nat, base: nat)
    requires base == 10 || base == 16
    ensures Value(Digits(num, base), base) == num
  {
    hide Value, DigitValue;
    DivMod(num, base);
    var c := DIGITS[num % base];
    DigitIs(num % base);
    if num / base != 0 {
      DigitsRoundTrip(num / base, base);
      ValueUnfold(c, Digits(num / base, base), base);
    } else {
      assert Digits(num, base) == [c] + "";
      ValueUnfold(c, "", base);
      ValueNone(base);
    }
  }

  lemma DigitIs(d: nat)
    requires d < 16
    ensures DigitValue(DIGITS[d]) == d
  {
  }

  lemma ValueNone(base: nat)
    ensures Value("", base) == 0
  {
  }

  /** No two numbers leave the same digits. */
  lemma DigitsInjective(m: nat, n: nat, base: nat)
    requires (base == 10 || base == 16) && Digits(m, base) == Digits(n, base)
    ensures m == n
  {
    DigitsRoundTrip(m, base);
    DigitsRoundTrip(n, base);
  }

  /** A number below ten reads as ten times itself. */
  lemma DecValue(num: nat)
    ensures Value(DecDigits(num), 10) == if num < 10 then 10 * num else num
  {
    hide Value, DigitValue, Digits;
    if num < 10 {
      assert DecDigits(num) == ['0'] + ([DIGITS[num]] + "");
      ValueUnfold('0', [DIGITS[num]] + "", 10);
      ValueUnfold(DIGITS[num], "", 10);
      ValueNone(10);
      DigitIs(0);
      DigitIs(num);
    } else {
      DigitsRoundTrip(num, 10);
    }
  }

  /** What klog_print_dec writes reads back as the number exactly for zero and from ten on. */
  lemma DecRoundTripIff(num: nat)
    ensures Value(DecDigits(num), 10) == num <==> num == 0 || num >= 10
  {
    hide Value, DecDigits;
    DecValue(num);
  }

  /** Two numbers print the same in decimal exactly if one is a single digit and the other ten times it. */
  lemma DecCollision(m: nat, n: nat)
    requires m < n
    ensures DecDigits(m) == DecDigits(n) <==> 0 < m < 10 && n == 10 * m
  {
    hide Value, DecDigits;
    DecValue(m);
    DecValue(n);
    if 0 < m < 10 && n == 10 * m {
      TenTimes(m);
    }
  }

  lemma TenTimes(m: nat)
    requires 0 < m < 10
    ensures DecDigits(m) == DecDigits(10 * m)
  {
    assert 10 * m % 10 == 0 && 10 * m / 10 == m;
    DigitsUnfold(10 * m, 10);
    DigitsUnfold(m, 10);
  }
}
