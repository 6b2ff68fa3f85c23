/**
  The minor-unit money printer and parser of the driver application
  (apps/mobile-driver/src/utils/format.ts).

  Texts are strings of characters, amounts are unbounded integers, as the source's BigInt.
 */
module Money {
  import opened Common

  // ---------------------------------------------------------------- decimal numerals

  predicate IsDigit(c: char) {
    '0' <= c <= '9'
  }

  predicate AllDigits(s: string) {
    forall i :: 0 <= i < |s| ==> IsDigit(s[i])
  }

  function DigitValue(c: char): nat
    requires IsDigit(c)
  {
    c as int - '0' as int
  }

  function DigitChar(d: nat): char
    requires d < 10
  {
    ('0' as int + d) as char
  }

  /** The number a run of decimal digits denotes; the empty run denotes zero. */
  function Value(s: string): nat
    requires AllDigits(s)
  {
    if s == "" then 0 else 10 * Value(s[..|s| - 1]) + DigitValue(s[|s| - 1])
  }

  /** The numeral of a number without leading zeros (BigInt.toString). */
  function Numeral(n: nat): string {
    if n < 10 then [DigitChar(n)] else Numeral(n / 10) + [DigitChar(n % 10)]
  }

  lemma {:induction false} NumeralIsDigits(n: nat)
    ensures Numeral(n) != "" && AllDigits(Numeral(n))
    ensures Value(Numeral(n)) == n
  {
    if n < 10 {
      assert Numeral(n)[..0] == "";
    } else {
      NumeralIsDigits(n / 10);
      var head := Numeral(n / 10);
      assert Numeral(n) == head + [DigitChar(n % 10)];
      assert Numeral(n)[..|head|] == head;
    }
  }

  // ---------------------------------------------------------------- formatMinorMoney

  /** `/^-?\d+$/` */
  predicate IsInteger(s: string) {
    var digits := if s != "" && s[0] == '-' then s[1..] else s;
    digits != "" && AllDigits(digits)
  }

  function IntegerValue(s: string): int
    requires IsInteger(s)
  {
    if s[0] == '-' then -(Value(s[1..]) as int) else Value(s)
  }

  /** `padStart(2, '0')` */
  function PadStart2(s: string): string {
    if |s| == 0 then "00" else if |s| == 1 then "0" + s else s
  }

  /**
    `replace(/\B(?=(\d{3})+(?!\d))/g, '.')` on a run of digits: a dot goes in front of every digit
    that is not the first one and starts a rest whose length is a multiple of three.
   */
  function Group(rest: string, atStart: bool): string {
    if rest == "" then ""
    else (if !atStart && |rest| % 3 == 0 then "." else "") + [rest[0]] + Group(rest[1..], false)
  }

  function Grouped(s: string): string {
    Group(s, true)
  }

  function Symbol(currency: string): string {
    if currency == "BRL" then "R$" else currency
  }

  function Body(absolute: nat): string {
    Grouped(Numeral(absolute / 100)) + "," + PadStart2(Numeral(absolute % 100))
  }

  function FormatMinorMoney(value: string, currency: string): string {
    if !IsInteger(value) then value + " " + currency
    else
      var amount := IntegerValue(value);
      var negative := amount < 0;
      var absolute := if negative then -amount else amount;
      (if negative then "-" else "") + Symbol(currency) + " " + Body(absolute)
  }

  // ---------------------------------------------------------------- decimalInputToMinor

  /** The white space and line terminators that `trim` removes. */
  predicate IsSpace(c: char) {
    var code := c as int;
    || 9 <= code <= 13 || code == 32 || code == 0xA0 || code == 0x1680 || 0x2000 <= code <= 0x200A
    || code == 0x2028 || code == 0x2029 || code == 0x202F || code == 0x205F || code == 0x3000 || code == 0xFEFF
  }

  function TrimStart(s: string): string {
    if s != "" && IsSpace(s[0]) then TrimStart(s[1..]) else s
  }

  function TrimEnd(s: string): string {
    if s != "" && IsSpace(s[|s| - 1]) then TrimEnd(s[..|s| - 1]) else s
  }

  /** `replace(/\./g, '')` */
  function WithoutDots(s: string): string {
    if s == "" then "" else (if s[0] == '.' then "" else [s[0]]) + WithoutDots(s[1..])
  }

  /** `replace(',', '.')`: the first comma only. */
  function FirstCommaToDot(s: string): string {
    if s == "" then "" else if s[0] == ',' then "." + s[1..] else [s[0]] + FirstCommaToDot(s[1..])
  }

  /** The text in front of the first dot, and the position of that dot (or the length). */
  function DotIndex(s: string): (i: nat)
    ensures i <= |s|
    ensures i < |s| ==> s[i] == '.'
    ensures forall j :: 0 <= j < i ==> s[j] != '.'
  {
    if s == "" || s[0] == '.' then 0 else 1 + DotIndex(s[1..])
  }

  /** `/^\d+(?:\.\d{0,2})?$/` */
  predicate IsDecimalInput(s: string) {
    var dot := DotIndex(s);
    && dot > 0
    && AllDigits(s[..dot])
    && (dot < |s| ==> |s| - dot <= 3 && AllDigits(s[dot + 1..]))
  }

  /** `padEnd(2, '0')` */
  function PadEnd2(s: string): string {
    if |s| == 0 then "00" else if |s| == 1 then s + "0" else s
  }

  function Normalize(value: string): string {
    FirstCommaToDot(WithoutDots(TrimEnd(TrimStart(value))))
  }

  function ParseNormalized(normalized: string): Option<string> {
    if !IsDecimalInput(normalized) then None
    else
      var dot := DotIndex(normalized);
      var units := normalized[..dot];
      var cents := if dot < |normalized| then normalized[dot + 1..] else "";
      Some(Numeral(Value(units) * 100 + Value(PadEnd2(cents))))
  }

  function DecimalInputToMinor(value: string): Option<string> {
    ParseNormalized(Normalize(value))
  }

  // ---------------------------------------------------------------- grouping

  /** Groups of three counted from the right, written independently of the position rule. */
  function GroupsOfThree(s: string): string {
    if |s| <= 3 then s else GroupsOfThree(s[..|s| - 3]) + "." + s[|s| - 3..]
  }

  lemma LastGroup(b: string)
    requires |b| == 3
    ensures Group(b, false) == "." + b
    ensures Group(b, true) == b
  {
    assert b == [b[0], b[1], b[2]];
    assert b[1..] == [b[1], b[2]] && b[1..][1..] == [b[2]] && b[1..][1..][1..] == "";
    assert Group(b[1..][1..], false) == [b[2]];
    assert Group(b[1..], false) == [b[1], b[2]];
  }

  lemma {:induction false} GroupSplits(a: string, b: string, atStart: bool)
    requires |b| == 3 && (atStart ==> a != "")
    ensures Group(a + b, atStart) == Group(a, atStart) + "." + b
  {
    if a == "" {
      assert a + b == b;
      LastGroup(b);
    } else {
      GroupSplits(a[1..], b, false);
      assert (a + b)[1..] == a[1..] + b;
      HeadOfLonger(a, b, atStart);
      GroupStep(a + b, atStart);
      GroupStep(a, atStart);
      Regroup(Head(a, atStart), Group(a[1..], false), b);
    }
  }

  /** The first digit with the dot in front of it, if there is one. */
  function Head(s: string, atStart: bool): string
    requires s != ""
  {
    (if !atStart && |s| % 3 == 0 then "." else "") + [s[0]]
  }

  /** Three more digits at the end do not move the dot at the front. */
  lemma HeadOfLonger(a: string, b: string, atStart: bool)
    requires a != "" && |b| == 3
    ensures Head(a + b, atStart) == Head(a, atStart)
  {
    assert (|a| + 3) % 3 == |a| % 3;
  }

  lemma GroupStep(s: string, atStart: bool)
    requires s != ""
    ensures Group(s, atStart) == Head(s, atStart) + Group(s[1..], false)
  {
  }

  lemma Regroup(head: string, middle: string, b: string)
    ensures head + (middle + "." + b) == head + middle + "." + b
  {
  }

  /** The position rule of the regular expression is grouping by three from the right. */
  lemma {:induction false} GroupedIsGroupsOfThree(s: string)
    ensures Grouped(s) == GroupsOfThree(s)
  {
    if |s| > 3 {
      var a, b := s[..|s| - 3], s[|s| - 3..];
      assert s == a + b;
      GroupSplits(a, b, true);
      GroupedIsGroupsOfThree(a);
    } else if |s| == 3 {
      LastGroup(s);
    } else if |s| == 2 {
      assert s == [s[0], s[1]] && s[1..] == [s[1]] && s[1..][1..] == "";
      assert Group(s[1..], false) == [s[1]];
    }
  }

  // ---------------------------------------------------------------- round trip

  lemma {:induction false} WithoutDotsConcat(s: string, t: string)
    ensures WithoutDots(s + t) == WithoutDots(s) + WithoutDots(t)
  {
    if s == "" {
      assert s + t == t;
    } else {
      assert (s + t)[1..] == s[1..] + t;
      WithoutDotsConcat(s[1..], t);
    }
  }

  lemma {:induction false} WithoutDotsOfDigits(s: string)
    requires forall i :: 0 <= i < |s| ==> s[i] != '.'
    ensures WithoutDots(s) == s
  {
    if s != "" {
      WithoutDotsOfDigits(s[1..]);
    }
  }

  lemma HeadWithoutDot(s: string, atStart: bool)
    requires s != "" && s[0] != '.'
    ensures WithoutDots(Head(s, atStart)) == [s[0]]
  {
    WithoutDotsConcat(if !atStart && |s| % 3 == 0 then "." else "", [s[0]]);
  }

  /** Removing the dots undoes the grouping. */
  lemma {:induction false} Ungroup(s: string, atStart: bool)
    requires AllDigits(s)
    ensures WithoutDots(Group(s, atStart)) == s
  {
    if s != "" {
      Ungroup(s[1..], false);
      assert IsDigit(s[0]);
      HeadWithoutDot(s, atStart);
      GroupStep(s, atStart);
      WithoutDotsConcat(Head(s, atStart), Group(s[1..], false));
      assert s == [s[0]] + s[1..];
      hide AllDigits, WithoutDots, Group, Head;
    }
  }

  lemma {:induction false} CommaAfterDigits(s: string, t: string)
    requires AllDigits(s)
    ensures FirstCommaToDot(s + "," + t) == s + "." + t
  {
    if s == "" {
      assert (s + "," + t)[1..] == t;
    } else {
      assert (s + "," + t)[1..] == s[1..] + "," + t;
      CommaAfterDigits(s[1..], t);
    }
  }

  lemma {:induction false} DotAfterDigits(s: string, t: string)
    requires AllDigits(s)
    ensures DotIndex(s + "." + t) == |s|
  {
    if s == "" {
    } else {
      assert (s + "." + t)[1..] == s[1..] + "." + t;
      DotAfterDigits(s[1..], t);
    }
  }

  lemma TwoDigitCents(c: nat)
    requires c < 100
    ensures |PadStart2(Numeral(c))| == 2 && AllDigits(PadStart2(Numeral(c)))
    ensures Value(PadStart2(Numeral(c))) == c
  {
    NumeralIsDigits(c);
    if c < 10 {
      var p := "0" + Numeral(c);
      assert p[..1] == "0" && p[..1][..0] == "";
    } else {
      assert Numeral(c) == Numeral(c / 10) + [DigitChar(c % 10)];
    }
  }

  /** No dot, no comma and no blank survives at either end of a printed body. */
  lemma BodyNormalizes(units: string, cents: string)
    requires AllDigits(units) && units != "" && AllDigits(cents) && |cents| == 2
    ensures
      var body := Grouped(units) + "," + cents;
      Normalize(body) == units + "." + cents
  {
    var g := Grouped(units);
    var body := g + "," + cents;
    assert g[0] == units[0];
    assert body[0] == units[0] && body[|body| - 1] == cents[1];
    Ungroup(units, true);
    WithoutDotsConcat(g + ",", cents);
    WithoutDotsConcat(g, ",");
    assert WithoutDots(",") == ",";
    WithoutDotsOfDigits(cents);
    CommaAfterDigits(units, cents);
  }

  lemma NormalizedParses(units: string, cents: string)
    requires AllDigits(units) && units != "" && AllDigits(cents) && |cents| == 2
    ensures ParseNormalized(units + "." + cents) == Some(Numeral(Value(units) * 100 + Value(cents)))
  {
    var normalized := units + "." + cents;
    DotAfterDigits(units, cents);
    hide DotIndex, Value, Numeral, AllDigits;
    assert normalized[..|units|] == units;
    assert normalized[|units| + 1..] == cents;
    assert PadEnd2(cents) == cents;
  }

  /** What the parser makes of a printed body. */
  lemma ParseBody(n: nat)
    ensures DecimalInputToMinor(Body(n)) == Some(Numeral(n))
  {
    NumeralIsDigits(n / 100);
    TwoDigitCents(n % 100);
    BodyNormalizes(Numeral(n / 100), PadStart2(Numeral(n % 100)));
    NormalizedParses(Numeral(n / 100), PadStart2(Numeral(n % 100)));
    assert n / 100 * 100 + n % 100 == n;
  }

  /** The parser refuses any text that starts with a minus sign and ends in no blank. */
  lemma SignedIsRefused(rest: string)
    requires rest != "" && !IsSpace(rest[|rest| - 1])
    ensures DecimalInputToMinor("-" + rest) == None
  {
  }

  lemma SplitAt(prefix: string, body: string)
    ensures (prefix + body)[..|prefix|] == prefix && (prefix + body)[|prefix|..] == body
  {
  }

  /** What stands in front of the digits of a printed amount. */
  function Prefix(amount: int, currency: string): string {
    (if amount < 0 then "-" else "") + Symbol(currency) + " "
  }

  lemma FormattedShape(value: string, currency: string)
    requires IsInteger(value)
    ensures
      var amount := IntegerValue(value);
      FormatMinorMoney(value, currency) == Prefix(amount, currency) + Body(if amount < 0 then -amount else amount)
  {
  }

  lemma SignedBodyParses(n: nat)
    ensures DecimalInputToMinor("" + Body(n)) == Some(Numeral(n))
    ensures DecimalInputToMinor("-" + Body(n)) == None
  {
    ParseBody(n);
    assert "" + Body(n) == Body(n);
    TwoDigitCents(n % 100);
    SignedIsRefused(Body(n));
  }

  lemma PrintedParses(text: string, amount: int, currency: string)
    requires text == Prefix(amount, currency) + Body(if amount < 0 then -amount else amount)
    ensures Prefix(amount, currency) <= text
    ensures
      var sign := if amount < 0 then "-" else "";
      DecimalInputToMinor(sign + text[|Prefix(amount, currency)|..]) == if amount >= 0 then Some(Numeral(amount)) else None
  {
    var n := if amount < 0 then -amount else amount;
    SplitAt(Prefix(amount, currency), Body(n));
    SignedBodyParses(n);
  }

  /**
    Round trip: with the currency symbol taken out, the parser gives back the canonical numeral of
    every non-negative amount of any size, and refuses every negative one.
   */
  lemma RoundTrip(value: string, currency: string)
    requires IsInteger(value)
    ensures
      var text := FormatMinorMoney(value, currency);
      var amount := IntegerValue(value);
      var sign := if amount < 0 then "-" else "";
      && Prefix(amount, currency) <= text
      && DecimalInputToMinor(sign + text[|Prefix(amount, currency)|..]) == if amount >= 0 then Some(Numeral(amount)) else None
  {
    FormattedShape(value, currency);
    PrintedParses(FormatMinorMoney(value, currency), IntegerValue(value), currency);
  }

  lemma NumeralIsInteger(n: nat)
    ensures IsInteger(Numeral(n)) && IntegerValue(Numeral(n)) == n
  {
    NumeralIsDigits(n);
    assert IsDigit(Numeral(n)[0]);
    hide Numeral, Value;
  }

  /** On the canonical numerals the two functions are exact inverses. */
  lemma CanonicalRoundTrip(n: nat, currency: string)
    ensures IsInteger(Numeral(n)) && IntegerValue(Numeral(n)) == n
    ensures
      var text := FormatMinorMoney(Numeral(n), currency);
      && Symbol(currency) + " " <= text
      && DecimalInputToMinor(text[|Symbol(currency) + " "|..]) == Some(Numeral(n))
  {
    NumeralIsInteger(n);
    FormattedShape(Numeral(n), currency);
    hide Numeral, IsInteger, IntegerValue, Body, FormatMinorMoney, DecimalInputToMinor;
    assert Prefix(n, currency) == Symbol(currency) + " ";
    SplitAt(Prefix(n, currency), Body(n));
    ParseBody(n);
  }

  /** Whatever the parser accepts it answers with a canonical numeral, which printing and parsing keep. */
  lemma ParseThenPrint(input: string, currency: string)
    requires DecimalInputToMinor(input).Some?
    ensures
      var minor := DecimalInputToMinor(input).value;
      var text := FormatMinorMoney(minor, currency);
      && (exists n: nat :: minor == Numeral(n))
      && Symbol(currency) + " " <= text
      && DecimalInputToMinor(text[|Symbol(currency) + " "|..]) == Some(minor)
  {
    var normalized := Normalize(input);
    var dot := DotIndex(normalized);
    var cents := if dot < |normalized| then normalized[dot + 1..] else "";
    var n: nat := Value(normalized[..dot]) * 100 + Value(PadEnd2(cents));
    CanonicalRoundTrip(n, currency);
    hide Numeral, FormatMinorMoney, IsInteger;
  }

  // ---------------------------------------------------------------- what is printed and what is accepted

  /** An integer is a run of digits with or without a minus sign, and denotes what it says. */
  lemma IntegersDenote(s: string)
    ensures IsInteger(s) <==> (s != "" && AllDigits(s)) || (|s| > 1 && s[0] == '-' && AllDigits(s[1..]))
    ensures IsInteger(s) && AllDigits(s) ==> IntegerValue(s) == Value(s)
    ensures IsInteger(s) && !AllDigits(s) ==> s[0] == '-' && AllDigits(s[1..]) && IntegerValue(s) == 0 - Value(s[1..])
  {
    assert s != "" && s[0] == '-' ==> !IsDigit(s[0]);
  }

  lemma CentsPrint(c: nat)
    requires c < 100
    ensures PadStart2(Numeral(c)) == [DigitChar(c / 10), DigitChar(c % 10)]
  {
    if c >= 10 {
      assert Numeral(c) == Numeral(c / 10) + [DigitChar(c % 10)];
    }
  }

  /** The whole units in groups of three, a comma and two digits of cents. */
  function InGroups(n: nat): string {
    GroupsOfThree(Numeral(n / 100)) + "," + [DigitChar(n / 10 % 10), DigitChar(n % 10)]
  }

  lemma BodyIsInGroups(n: nat)
    ensures Body(n) == InGroups(n)
  {
    GroupedIsGroupsOfThree(Numeral(n / 100));
    CentsPrint(n % 100);
    assert n % 100 / 10 == n / 10 % 10 && n % 100 % 10 == n % 10;
  }

  /** What is printed: sign, symbol, blank and amount; a text that is no integer comes back with its currency. */
  lemma PrintsInGroups(value: string, currency: string)
    ensures !IsInteger(value) ==> FormatMinorMoney(value, currency) == value + " " + currency
    ensures IsInteger(value) && IntegerValue(value) >= 0 ==>
      FormatMinorMoney(value, currency)
        == (if currency == "BRL" then "R$" else currency) + " " + InGroups(IntegerValue(value))
    ensures IsInteger(value) && IntegerValue(value) < 0 ==>
      FormatMinorMoney(value, currency)
        == "-" + (if currency == "BRL" then "R$" else currency) + " " + InGroups(-IntegerValue(value))
  {
    if IsInteger(value) {
      BodyIsInGroups(if IntegerValue(value) < 0 then -IntegerValue(value) else IntegerValue(value));
      hide Body, InGroups, IsInteger, IntegerValue;
      assert "" + Symbol(currency) == Symbol(currency);
    }
  }

  /** The white space and line terminators of ECMAScript, one by one. */
  const WHITE_SPACE := "\t\n\U{b}\U{c}\r \U{a0}\U{1680}\U{2000}\U{2001}\U{2002}\U{2003}\U{2004}\U{2005}\U{2006}\U{2007}"
                     + "\U{2008}\U{2009}\U{200a}\U{2028}\U{2029}\U{202f}\U{205f}\U{3000}\U{feff}"

  predicate IsBlank(c: char) {
    c in WHITE_SPACE
  }

  lemma SpacesAreListed(c: char)
    ensures IsSpace(c) <==> IsBlank(c)
  {
    if c in WHITE_SPACE {
      var i :| 0 <= i < |WHITE_SPACE| && WHITE_SPACE[i] == c;
    } else {
      assert forall i :: 0 <= i < |WHITE_SPACE| ==> WHITE_SPACE[i] != c;
      assert WHITE_SPACE[0] != c;
    }
  }

  predicate AllBlank(s: string) {
    forall k :: 0 <= k < |s| ==> IsBlank(s[k])
  }

  lemma {:induction false} TrimStartCuts(s: string) returns (blanks: string)
    ensures s == blanks + TrimStart(s) && AllBlank(blanks)
    ensures TrimStart(s) != "" ==> !IsBlank(TrimStart(s)[0])
  {
    blanks := "";
    hide IsSpace, IsBlank;
    if s != "" {
      SpacesAreListed(s[0]);
      if IsSpace(s[0]) {
        var rest := TrimStartCuts(s[1..]);
        blanks := [s[0]] + rest;
        assert s == [s[0]] + s[1..];
        assert blanks + TrimStart(s) == [s[0]] + (rest + TrimStart(s));
        hide TrimStart;
      }
    }
  }

  lemma {:induction false} TrimEndCuts(s: string) returns (blanks: string)
    ensures s == TrimEnd(s) + blanks && AllBlank(blanks)
    ensures TrimEnd(s) != "" ==> TrimEnd(s)[0] == s[0] && !IsBlank(TrimEnd(s)[|TrimEnd(s)| - 1])
  {
    blanks := "";
    hide IsSpace, IsBlank;
    if s != "" {
      var front, last := s[..|s| - 1], s[|s| - 1];
      SpacesAreListed(last);
      if IsSpace(last) {
        var rest := TrimEndCuts(front);
        blanks := rest + [last];
        assert TrimEnd(s) == TrimEnd(front);
        assert s == front + [last];
        assert TrimEnd(s) + blanks == (TrimEnd(front) + rest) + [last];
        hide TrimEnd;
      }
    }
  }

  /** Trimming takes white space off both ends, and all of it. */
  lemma TrimCutsTheBlanks(s: string)
    ensures
      var trimmed := TrimEnd(TrimStart(s));
      && (exists head, tail :: AllBlank(head) && AllBlank(tail) && s == head + trimmed + tail)
      && (trimmed != "" ==> !IsBlank(trimmed[0]) && !IsBlank(trimmed[|trimmed| - 1]))
  {
    var head := TrimStartCuts(s);
    var tail := TrimEndCuts(TrimStart(s));
    hide IsBlank, AllBlank, TrimStart, TrimEnd;
    assert s == head + TrimEnd(TrimStart(s)) + tail;
  }

  /** The input without surrounding blanks and without dots. */
  function Plain(input: string): string {
    WithoutDots(TrimEnd(TrimStart(input)))
  }

  /** Units, then perhaps a comma and at most two digits of cents. */
  predicate IsAmount(text: string, units: string, cents: string) {
    && units != "" && AllDigits(units) && AllDigits(cents) && |cents| <= 2
    && (text == units + "," + cents || (text == units && cents == ""))
  }

  /** A single digit counts tens of cents. */
  function Minor(units: string, cents: string): nat
    requires AllDigits(units) && AllDigits(cents)
  {
    100 * Value(units) + if |cents| == 1 then 10 * Value(cents) else Value(cents)
  }

  lemma {:induction false} NoDotIsLeft(s: string)
    ensures '.' !in WithoutDots(s)
  {
    if s != "" {
      NoDotIsLeft(s[1..]);
    }
  }

  lemma {:induction false} DotIndexBehind(s: string, t: string)
    requires '.' !in s
    ensures DotIndex(s + "." + t) == |s| && DotIndex(s) == |s|
  {
    if s != "" {
      assert (s + "." + t)[1..] == s[1..] + "." + t;
      DotIndexBehind(s[1..], t);
    }
  }

  lemma {:induction false} NoCommaStays(s: string)
    requires ',' !in s
    ensures FirstCommaToDot(s) == s
  {
    if s != "" {
      NoCommaStays(s[1..]);
    }
  }

  /** Otherwise the first comma becomes a dot. */
  lemma {:induction false} CommaSplits(s: string) returns (front: string, back: string)
    requires ',' in s
    ensures s == front + "," + back && FirstCommaToDot(s) == front + "." + back
  {
    var tail := s[1..];
    assert s == [s[0]] + tail;
    if s[0] == ',' {
      front, back := "", tail;
    } else {
      var rest, behind := CommaSplits(tail);
      front, back := [s[0]] + rest, behind;
      assert FirstCommaToDot(s) == [s[0]] + FirstCommaToDot(tail);
      assert front + "," + back == [s[0]] + (rest + "," + back);
      assert front + "." + back == [s[0]] + (rest + "." + back);
      hide FirstCommaToDot;
    }
  }

  lemma PaddedCents(cents: string)
    requires AllDigits(cents) && |cents| <= 2
    ensures AllDigits(PadEnd2(cents))
    ensures Value(PadEnd2(cents)) == if |cents| == 1 then 10 * Value(cents) else Value(cents)
  {
    if |cents| == 1 {
      assert PadEnd2(cents)[..1] == cents;
    } else if |cents| == 0 {
      assert "00"[..1] == "0" && "0"[..0] == "";
    }
  }

  lemma AmountParses(text: string, units: string, cents: string)
    requires IsAmount(text, units, cents)
    ensures ParseNormalized(FirstCommaToDot(text)) == Some(Numeral(Minor(units, cents)))
  {
    PaddedCents(cents);
    DotIndexBehind(units, cents);
    if text == units {
      NoCommaStays(text);
      assert units[..|units|] == units;
    } else {
      CommaAfterDigits(units, cents);
      var normalized := units + "." + cents;
      assert normalized[..|units|] == units && normalized[|units| + 1..] == cents;
    }
  }

  lemma ParsedIsAmount(text: string)
    requires '.' !in text && ParseNormalized(FirstCommaToDot(text)).Some?
    ensures exists units, cents :: IsAmount(text, units, cents)
  {
    if ',' in text {
      var front, back := CommaSplits(text);
      DotIndexBehind(front, back);
      var normalized := front + "." + back;
      assert normalized[..|front|] == front && normalized[|front| + 1..] == back;
      assert IsAmount(text, front, back);
    } else {
      NoCommaStays(text);
      DotIndexBehind(text, "");
      assert text[..|text|] == text;
      assert IsAmount(text, text, "");
    }
  }

  /**
    What the parser accepts: an amount with at most two digits of cents behind a comma, blanks around
    it and dots anywhere; it answers the numeral of that amount in cents.
   */
  lemma ParserAcceptsIff(input: string)
    ensures DecimalInputToMinor(input).Some? <==> exists units, cents :: IsAmount(Plain(input), units, cents)
    ensures forall units, cents :: IsAmount(Plain(input), units, cents) ==>
      DecimalInputToMinor(input) == Some(Numeral(Minor(units, cents)))
  {
    var text := Plain(input);
    forall units, cents | IsAmount(text, units, cents)
      ensures DecimalInputToMinor(input) == Some(Numeral(Minor(units, cents)))
    {
      AmountParses(text, units, cents);
    }
    if DecimalInputToMinor(input).Some? {
      NoDotIsLeft(TrimEnd(TrimStart(input)));
      ParsedIsAmount(text);
    }
  }
}
