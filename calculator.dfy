/** The integer tools of the simple calculator example: extraction of the
    numbers in a text (`re.findall(r"\d+", text)`), the count check
    `validate_number_count`, the comparison, product and difference tools,
    and the "fewer than 2 numbers" reply of the composite calculator. */
module Calculator {
  import opened Wrappers

  // ---------------------------------------------------------------------
  // Digit runs
  // ---------------------------------------------------------------------

  predicate IsDigit(c: char)
  {
    '0' <= c <= '9'
  }

  predicate AllDigits(s: string)
  {
    forall i :: 0 <= i < |s| ==> IsDigit(s[i])
  }

  predicate NoDigits(s: string)
  {
    forall i :: 0 <= i < |s| ==> !IsDigit(s[i])
  }

  /** A match of `\d+`: a non-empty string of digits. */
  predicate IsRun(r: string)
  {
    r != "" && AllDigits(r)
  }

  predicate AllRuns(runs: seq<string>)
  {
    forall k :: 0 <= k < |runs| ==> IsRun(runs[k])
  }

  /** The length of the longest prefix of `s` made of digits. */
  function DigitPrefixLength(s: string): (n: nat)
    ensures n <= |s|
    ensures AllDigits(s[..n])
    ensures n == |s| || !IsDigit(s[n])
    ensures s != "" && IsDigit(s[0]) ==> n > 0
    decreases |s|
  {
    if s == [] || !IsDigit(s[0]) then 0
    else
      var m := DigitPrefixLength(s[1..]);
      assert s[..1 + m] == [s[0]] + s[1..][..m];
      1 + m
  }

  /** `re.findall(r"\d+", s)`: scanning left to right, skip characters that
      are not digits and take each maximal run of digits. */
  function FindDigitRuns(s: string): (runs: seq<string>)
    ensures AllRuns(runs)
    decreases |s|
  {
    if s == [] then []
    else if !IsDigit(s[0]) then FindDigitRuns(s[1..])
    else
      var n := DigitPrefixLength(s);
      [s[..n]] + FindDigitRuns(s[n..])
  }

  /** `gaps[0] + runs[0] + gaps[1] + ... + runs[k-1] + gaps[k]`. */
  function Interleave(gaps: seq<string>, runs: seq<string>): string
    requires |gaps| == |runs| + 1
    decreases |runs|
  {
    if runs == [] then gaps[0]
    else gaps[0] + runs[0] + Interleave(gaps[1..], runs[1..])
  }

  /** The text between the runs holds no digit, and the gaps between two
      runs are non-empty (so that no two runs touch). */
  predicate Separators(gaps: seq<string>)
  {
    && (forall k :: 0 <= k < |gaps| ==> NoDigits(gaps[k]))
    && (forall k :: 0 < k < |gaps| - 1 ==> gaps[k] != "")
  }

  /** Prepending a character to the first gap prepends it to the text. */
  lemma {:induction false} InterleaveConsFirst(c: char, gaps: seq<string>, runs: seq<string>)
    requires |gaps| == |runs| + 1
    ensures Interleave([[c] + gaps[0]] + gaps[1..], runs) == [c] + Interleave(gaps, runs)
  {
    var gaps' := [[c] + gaps[0]] + gaps[1..];
    assert gaps'[0] == [c] + gaps[0];
    if runs != [] {
      assert gaps'[1..] == gaps[1..];
      var tail := runs[0] + Interleave(gaps[1..], runs[1..]);
      assert Interleave(gaps', runs) == ([c] + gaps[0]) + tail;
      assert Interleave(gaps, runs) == gaps[0] + tail;
    }
  }

  /** Every text is its digit runs separated by digit-free gaps. */
  lemma {:induction false} RunsDecompose(s: string) returns (gaps: seq<string>)
    ensures |gaps| == |FindDigitRuns(s)| + 1
    ensures Separators(gaps)
    ensures Interleave(gaps, FindDigitRuns(s)) == s
    decreases |s|
  {
    if s == [] {
      gaps := [""];
    } else if !IsDigit(s[0]) {
      var g := RunsDecompose(s[1..]);
      gaps := [[s[0]] + g[0]] + g[1..];
      InterleaveConsFirst(s[0], g, FindDigitRuns(s[1..]));
      assert [s[0]] + s[1..] == s;
      assert NoDigits(gaps[0]) by {
        assert gaps[0] == [s[0]] + g[0];
      }
      assert forall k :: 0 < k < |gaps| ==> gaps[k] == g[k];
    } else {
      var n := DigitPrefixLength(s);
      var rest := s[n..];
      var runs' := FindDigitRuns(rest);
      var g := RunsDecompose(rest);
      gaps := [""] + g;
      assert FindDigitRuns(s) == [s[..n]] + runs';
      assert (runs' == []) == (|g| == 1);
      if runs' != [] {
        assert rest == g[0] + runs'[0] + Interleave(g[1..], runs'[1..]);
        assert rest != "" && !IsDigit(rest[0]);
        assert g[0] != "" by {
          assert IsDigit(runs'[0][0]);
        }
      }
      assert gaps[1..] == g;
      assert s[..n] + rest == s;
      assert forall k :: 0 < k < |gaps| ==> gaps[k] == g[k - 1];
    }
  }

  /** A digit prefix followed by a non-digit (or nothing) is the whole
      digit prefix of the text. */
  lemma {:induction false} DigitPrefixOf(a: string, b: string)
    requires AllDigits(a)
    requires b == "" || !IsDigit(b[0])
    ensures DigitPrefixLength(a + b) == |a|
    decreases |a|
  {
    if a != [] {
      assert (a + b)[1..] == a[1..] + b;
      DigitPrefixOf(a[1..], b);
    }
  }

  /** The decomposition is unique: any way of writing a text as digit runs
      separated by digit-free gaps, with non-empty gaps between runs,
      yields exactly the runs `findall` returns. */
  lemma {:induction false} RunsUnique(s: string, gaps: seq<string>, runs: seq<string>)
    requires |gaps| == |runs| + 1
    requires Separators(gaps)
    requires AllRuns(runs)
    requires Interleave(gaps, runs) == s
    ensures FindDigitRuns(s) == runs
    decreases |s|
  {
    if gaps[0] != "" {
      var gaps' := [gaps[0][1..]] + gaps[1..];
      assert gaps[0] == [gaps[0][0]] + gaps'[0];
      assert gaps'[1..] == gaps[1..];
      assert gaps == [[gaps[0][0]] + gaps'[0]] + gaps'[1..];
      InterleaveConsFirst(gaps[0][0], gaps', runs);
      assert s == [gaps[0][0]] + Interleave(gaps', runs);
      assert !IsDigit(s[0]);
      assert s[1..] == Interleave(gaps', runs);
      assert forall k :: 0 < k < |gaps'| ==> gaps'[k] == gaps[k];
      RunsUnique(s[1..], gaps', runs);
    } else if runs != [] {
      var rest := Interleave(gaps[1..], runs[1..]);
      assert s == runs[0] + rest;
      if runs[1..] == [] {
        assert rest == gaps[1];
      } else {
        assert rest == gaps[1] + runs[1][0..] + Interleave(gaps[2..], runs[2..]);
        assert gaps[1] != "";
        assert rest[0] == gaps[1][0];
      }
      assert rest == "" || !IsDigit(rest[0]);
      DigitPrefixOf(runs[0], rest);
      var n := DigitPrefixLength(s);
      assert s[..n] == runs[0] && s[n..] == rest;
      assert IsDigit(s[0]);
      assert forall k :: 0 < k < |gaps[1..]| - 1 ==> gaps[1..][k] == gaps[k + 1];
      RunsUnique(rest, gaps[1..], runs[1..]);
    }
  }

  // ---------------------------------------------------------------------
  // int() and str() on non-negative decimals
  // ---------------------------------------------------------------------

  function DigitValue(c: char): (d: nat)
    requires IsDigit(c)
    ensures d < 10
  {
    (c as int) - ('0' as int)
  }

  function DigitChar(d: nat): (c: char)
    requires d < 10
    ensures IsDigit(c) && DigitValue(c) == d
  {
    ('0' as int + d) as char
  }

  /** `int(ds)` of a run of digits (leading zeros allowed: "007" is 7). */
  function DecimalValue(ds: string): (v: nat)
    requires IsRun(ds)
    // the value is zero exactly when every digit is '0'
    ensures v == 0 <==> forall i :: 0 <= i < |ds| ==> ds[i] == '0'
    decreases |ds|
  {
    if |ds| == 1 then DigitValue(ds[0])
    else DecimalValue(ds[..|ds| - 1]) * 10 + DigitValue(ds[|ds| - 1])
  }

  /** `str(n)` of a non-negative integer: its digits, no leading zero. */
  function NatToDecimal(n: nat): (s: string)
    ensures IsRun(s)
    ensures s[0] == '0' <==> n == 0
    ensures n == 0 ==> s == "0"
    decreases n
  {
    if n < 10 then [DigitChar(n)] else NatToDecimal(n / 10) + [DigitChar(n % 10)]
  }

  /** Printing then parsing gives the number back. */
  lemma {:induction false} PrintParse(n: nat)
    ensures DecimalValue(NatToDecimal(n)) == n
    decreases n
  {
    if n >= 10 {
      var s := NatToDecimal(n);
      assert s[..|s| - 1] == NatToDecimal(n / 10);
      PrintParse(n / 10);
    }
  }

  /** Parsing then printing gives back any digit string without a leading
      zero; with one, `int` drops it, so `str(int("007"))` is "7". */
  lemma {:induction false} ParsePrint(ds: string)
    requires IsRun(ds) && (|ds| > 1 ==> ds[0] != '0')
    ensures NatToDecimal(DecimalValue(ds)) == ds
    decreases |ds|
  {
    if |ds| == 1 {
      assert DigitChar(DigitValue(ds[0])) == ds[0];
    } else {
      var init := ds[..|ds| - 1];
      var last := DigitValue(ds[|ds| - 1]);
      ParsePrint(init);
      var v := DecimalValue(ds);
      assert v == DecimalValue(init) * 10 + last;
      assert v / 10 == DecimalValue(init) && v % 10 == last;
      assert DigitChar(last) == ds[|ds| - 1];
      assert ds == init + [ds[|ds| - 1]];
    }
  }

  /** `str(i)` of any integer: a minus sign before the digits of `-i`
      when `i` is negative. */
  function IntToDecimal(i: int): (s: string)
    ensures s != ""
    ensures s[0] == '-' <==> i < 0
    ensures i >= 0 ==> IsRun(s) && DecimalValue(s) == i
    ensures i < 0 ==> IsRun(s[1..]) && DecimalValue(s[1..]) == -i
    // no leading zero, except in "0" itself
    ensures var digits := if i < 0 then s[1..] else s; digits[0] == '0' ==> i == 0
  {
    if i < 0 then
      PrintParse(-i);
      assert ("-" + NatToDecimal(-i))[1..] == NatToDecimal(-i);
      "-" + NatToDecimal(-i)
    else
      PrintParse(i);
      NatToDecimal(i)
  }

  /** The number of decimal digits of `i`, not counting a minus sign. */
  function DecimalDigits(i: int): nat
  {
    |NatToDecimal(if i < 0 then -i else i)|
  }

  /** A run of digits has a value with at most as many digits as the run
      (fewer when it has leading zeros). */
  lemma {:induction false} DigitsOfValue(ds: string)
    requires IsRun(ds)
    ensures DecimalDigits(DecimalValue(ds)) <= |ds|
    decreases |ds|
  {
    if |ds| > 1 {
      var init := ds[..|ds| - 1];
      assert IsRun(init);
      DigitsOfValue(init);
      var v := DecimalValue(ds);
      if v >= 10 {
        assert v / 10 == DecimalValue(init);
      }
    }
  }

  /** A larger number never has fewer digits. */
  lemma {:induction false} DigitsMonotone(n: nat, m: nat)
    requires n <= m
    ensures |NatToDecimal(n)| <= |NatToDecimal(m)|
    decreases m
  {
    if n >= 10 {
      DigitsMonotone(n / 10, m / 10);
    }
  }

  // ---------------------------------------------------------------------
  // The limit on int/str conversion
  // ---------------------------------------------------------------------

  /** `sys.get_int_max_str_digits()` at its default: `int()` of a longer
      decimal string and `str()` of an integer with more digits raise
      `ValueError`. */
  const MaxStrDigits := 4300

  /** The `ValueError`s of the conversion limit. `int()` reports how many
      digits its argument has; `str()` does not. */
  datatype ConversionError = ParseLimit(digits: nat) | PrintLimit

  /** `int(ds)` of a run of digits; leading zeros count towards the limit. */
  function ParseInt(ds: string): (r: Result<nat, ConversionError>)
    requires IsRun(ds)
    ensures r.Failure? <==> |ds| > MaxStrDigits
    ensures r.Failure? ==> r.error == ParseLimit(|ds|)
    ensures r.Success? ==> r.value == DecimalValue(ds) && DecimalDigits(r.value) <= MaxStrDigits
  {
    if |ds| > MaxStrDigits then Failure(ParseLimit(|ds|))
    else
      DigitsOfValue(ds);
      Success(DecimalValue(ds))
  }

  /** `str(i)`, which raises when `i` has more digits than the limit. */
  function PrintInt(i: int): (r: Result<string, ConversionError>)
    ensures r.Failure? <==> DecimalDigits(i) > MaxStrDigits
    ensures r.Failure? ==> r.error == PrintLimit
    ensures r.Success? ==> r.value == IntToDecimal(i)
  {
    if DecimalDigits(i) > MaxStrDigits then Failure(PrintLimit) else Success(IntToDecimal(i))
  }

  /** The difference of two numbers printed within the limit is printed
      within the limit too. */
  lemma DifferenceDigits(a: nat, b: nat)
    requires DecimalDigits(a) <= MaxStrDigits && DecimalDigits(b) <= MaxStrDigits
    ensures DecimalDigits(a - b) <= MaxStrDigits
  {
    if a >= b {
      DigitsMonotone(a - b, a);
    } else {
      DigitsMonotone(b - a, b);
    }
  }

  // ---------------------------------------------------------------------
  // validate_number_count
  // ---------------------------------------------------------------------

  function FewerMessage(expectedCount: int, action: string): string
  {
    "Provide at least " + IntToDecimal(expectedCount) + " numbers to " + action + "."
  }

  function MoreMessage(expectedCount: int, action: string): string
  {
    "This tool only supports " + action + " between " + IntToDecimal(expectedCount) + " numbers."
  }

  /** `None` when the count is right, otherwise the message for too few or
      too many numbers. A message is never empty, so the callers' truthiness
      test `if validation_error:` is exactly "a message was returned". */
  function ValidateNumberCount(numbers: seq<string>, expectedCount: int, action: string): (r: Option<string>)
    ensures r.None? <==> |numbers| == expectedCount
    ensures |numbers| < expectedCount ==> r == Some(FewerMessage(expectedCount, action))
    ensures |numbers| > expectedCount ==> r == Some(MoreMessage(expectedCount, action))
    ensures r.Some? ==> r.value != ""
    ensures r.Some? ==> r.value[0] == (if |numbers| < expectedCount then 'P' else 'T')
  {
    if |numbers| < expectedCount then Some(FewerMessage(expectedCount, action))
    else if |numbers| > expectedCount then Some(MoreMessage(expectedCount, action))
    else None
  }

  // ---------------------------------------------------------------------
  // The integer tools
  // ---------------------------------------------------------------------

  function VerdictHead(a: string): string
  {
    "First number " + a + " is "
  }

  function VerdictTail(b: string): string
  {
    " the second number " + b
  }

  /** The comparison report `First number {a} is <word> the second number {b}`,
      given the printed operands. */
  function Verdict(a: string, word: string, b: string): string
  {
    VerdictHead(a) + word + VerdictTail(b)
  }

  function GreaterReport(a: int, b: int): string { Verdict(IntToDecimal(a), "greater than", IntToDecimal(b)) }
  function LessReport(a: int, b: int): string { Verdict(IntToDecimal(a), "less than", IntToDecimal(b)) }
  function EqualReport(a: int, b: int): string { Verdict(IntToDecimal(a), "equal to", IntToDecimal(b)) }

  /** The character right after `head` is the first character of `word`. */
  lemma CharAfter(head: string, word: string, tail: string)
    requires word != ""
    ensures (head + word + tail)[|head|] == word[0]
  {
  }

  /** The three reports for the same operands differ (they differ at the
      first letter of the verdict word). */
  lemma ReportsDistinct(a: int, b: int)
    ensures GreaterReport(a, b) != LessReport(a, b)
    ensures GreaterReport(a, b) != EqualReport(a, b)
    ensures LessReport(a, b) != EqualReport(a, b)
  {
    var head, tail := VerdictHead(IntToDecimal(a)), VerdictTail(IntToDecimal(b));
    CharAfter(head, "greater than", tail);
    CharAfter(head, "less than", tail);
    CharAfter(head, "equal to", tail);
  }

  /** The values of the first two numbers found in `text`. */
  function FirstOperand(text: string): nat
    requires |FindDigitRuns(text)| == 2
  {
    DecimalValue(FindDigitRuns(text)[0])
  }

  function SecondOperand(text: string): nat
    requires |FindDigitRuns(text)| == 2
  {
    DecimalValue(FindDigitRuns(text)[1])
  }

  /** Whether `int()` refuses a number found in `text`: the first of the
      two runs that is longer than the limit, if any. */
  function OperandTooLong(text: string): Option<nat>
    requires |FindDigitRuns(text)| == 2
  {
    var runs := FindDigitRuns(text);
    if |runs[0]| > MaxStrDigits then Some(|runs[0]|)
    else if |runs[1]| > MaxStrDigits then Some(|runs[1]|)
    else None
  }

  /** `_calculator_inequality`. */
  function CompareNumbers(text: string): (r: Result<string, ConversionError>)
    // without exactly two numbers the count message is returned unchanged
    ensures |FindDigitRuns(text)| != 2 ==>
              r == Success(ValidateNumberCount(FindDigitRuns(text), 2, "compare").value)
    // int() raises exactly on a number over the limit; printing never does
    ensures |FindDigitRuns(text)| == 2 ==>
              (r.Failure? <==> OperandTooLong(text).Some?)
              && (r.Failure? ==> r.error == ParseLimit(OperandTooLong(text).value))
    // otherwise the report is exactly the one whose relation holds
    ensures |FindDigitRuns(text)| == 2 && r.Success? ==>
              var a, b := FirstOperand(text), SecondOperand(text);
              && (r.value == GreaterReport(a, b) <==> a > b)
              && (r.value == LessReport(a, b) <==> a < b)
              && (r.value == EqualReport(a, b) <==> a == b)
  {
    var numbers := FindDigitRuns(text);
    var validationError := ValidateNumberCount(numbers, 2, "compare");
    if validationError.Some? then Success(validationError.value)
    else
      var a :- ParseInt(numbers[0]);
      var b :- ParseInt(numbers[1]);
      ReportsDistinct(a, b);
      // both operands were parsed within the limit, so they print
      var sa, sb := PrintInt(a).value, PrintInt(b).value;
      if a > b then Success(Verdict(sa, "greater than", sb))
      else if a < b then Success(Verdict(sa, "less than", sb))
      else Success(Verdict(sa, "equal to", sb))
  }

  function ProductReport(a: int, b: int): string
  {
    "The product of " + IntToDecimal(a) + " * " + IntToDecimal(b) + " is " + IntToDecimal(a * b)
  }

  /** `_calculator_multiply`. */
  function MultiplyNumbers(text: string): (r: Result<string, ConversionError>)
    ensures |FindDigitRuns(text)| != 2 ==>
              r == Success(ValidateNumberCount(FindDigitRuns(text), 2, "multiply").value)
    // int() raises on a number over the limit; otherwise str() raises
    // exactly when the product has more digits than the limit
    ensures |FindDigitRuns(text)| == 2 && OperandTooLong(text).Some? ==>
              r == Failure(ParseLimit(OperandTooLong(text).value))
    ensures |FindDigitRuns(text)| == 2 && OperandTooLong(text).None? ==>
              var a, b := FirstOperand(text), SecondOperand(text);
              if DecimalDigits(a * b) > MaxStrDigits then r == Failure(PrintLimit)
              else r == Success(ProductReport(a, b))
  {
    var numbers := FindDigitRuns(text);
    var validationError := ValidateNumberCount(numbers, 2, "multiply");
    if validationError.Some? then Success(validationError.value)
    else
      var a :- ParseInt(numbers[0]);
      var b :- ParseInt(numbers[1]);
      var sa, sb := PrintInt(a).value, PrintInt(b).value;
      var product :- PrintInt(a * b);
      Success("The product of " + sa + " * " + sb + " is " + product)
  }

  function DifferenceReport(a: int, b: int): string
  {
    "The result of " + IntToDecimal(a) + " - " + IntToDecimal(b) + " is " + IntToDecimal(a - b)
  }

  /** `_calculator_subtract`. */
  function SubtractNumbers(text: string): (r: Result<string, ConversionError>)
    ensures |FindDigitRuns(text)| != 2 ==>
              r == Success(ValidateNumberCount(FindDigitRuns(text), 2, "subtract").value)
    // int() raises on a number over the limit; the difference always prints
    ensures |FindDigitRuns(text)| == 2 && OperandTooLong(text).Some? ==>
              r == Failure(ParseLimit(OperandTooLong(text).value))
    ensures |FindDigitRuns(text)| == 2 && OperandTooLong(text).None? ==>
              r == Success(DifferenceReport(FirstOperand(text), SecondOperand(text)))
  {
    var numbers := FindDigitRuns(text);
    var validationError := ValidateNumberCount(numbers, 2, "subtract");
    if validationError.Some? then Success(validationError.value)
    else
      var a :- ParseInt(numbers[0]);
      var b :- ParseInt(numbers[1]);
      DifferenceDigits(a, b);
      // neither the operands nor their difference exceed the limit
      var sa, sb, difference := PrintInt(a).value, PrintInt(b).value, PrintInt(a - b).value;
      Success("The result of " + sa + " - " + sb + " is " + difference)
  }

  /** `gx` and `gy` joined into one list of gaps, with the last gap of `gx`,
      the text `m` and the first gap of `gy` merged into one. */
  function Glue(gx: seq<string>, m: string, gy: seq<string>): seq<string>
    requires gx != [] && gy != []
  {
    gx[..|gx| - 1] + [gx[|gx| - 1] + m + gy[0]] + gy[1..]
  }

  /** Interleaving the glued gaps with both lists of runs gives the two
      texts with `m` between them. */
  lemma {:induction false} InterleaveGlue(gx: seq<string>, rx: seq<string>, m: string,
                                          gy: seq<string>, ry: seq<string>)
    requires |gx| == |rx| + 1 && |gy| == |ry| + 1
    ensures |Glue(gx, m, gy)| == |rx + ry| + 1
    ensures Interleave(Glue(gx, m, gy), rx + ry) == Interleave(gx, rx) + m + Interleave(gy, ry)
    decreases |rx|
  {
    var glued := Glue(gx, m, gy);
    if rx == [] {
      assert rx + ry == ry;
      assert glued == [gx[0] + m + gy[0]] + gy[1..];
      if ry != [] {
        assert glued[1..] == gy[1..];
      }
    } else {
      InterleaveGlue(gx[1..], rx[1..], m, gy, ry);
      assert glued[0] == gx[0];
      assert glued[1..] == Glue(gx[1..], m, gy);
      assert (rx + ry)[0] == rx[0];
      assert (rx + ry)[1..] == rx[1..] + ry;
    }
  }

  lemma NoDigitsJoin(a: string, b: string)
    requires NoDigits(a) && NoDigits(b)
    ensures NoDigits(a + b)
  {
  }

  /** A non-digit between two texts separates their numbers: the numbers
      found in `x + [c] + y` are those of `x` followed by those of `y`. */
  lemma {:induction false} NonDigitSplits(x: string, c: char, y: string)
    requires !IsDigit(c)
    ensures FindDigitRuns(x + [c] + y) == FindDigitRuns(x) + FindDigitRuns(y)
  {
    var rx, ry := FindDigitRuns(x), FindDigitRuns(y);
    var gx := RunsDecompose(x);
    var gy := RunsDecompose(y);
    var glued := Glue(gx, [c], gy);
    InterleaveGlue(gx, rx, [c], gy, ry);
    var middle := gx[|gx| - 1] + [c] + gy[0];
    NoDigitsJoin(gx[|gx| - 1], [c]);
    NoDigitsJoin(gx[|gx| - 1] + [c], gy[0]);
    forall k | 0 <= k < |glued|
      ensures NoDigits(glued[k])
      ensures 0 < k < |glued| - 1 ==> glued[k] != ""
    {
      if k < |gx| - 1 {
        assert glued[k] == gx[k];
      } else if k == |gx| - 1 {
        assert glued[k] == middle;
      } else {
        assert glued[k] == gy[k - |gx| + 1];
      }
    }
    assert AllRuns(rx + ry) by {
      forall k | 0 <= k < |rx + ry|
        ensures IsRun((rx + ry)[k])
      {
        if k < |rx| {
          assert (rx + ry)[k] == rx[k];
        } else {
          assert (rx + ry)[k] == ry[k - |rx|];
        }
      }
    }
    RunsUnique(x + [c] + y, glued, rx + ry);
  }

  /** A minus sign is never part of a number: the numbers of `x + "-" + y`
      are those of `x` followed by those of `y`, so "3-5" holds 3 and 5
      and never -5. */
  lemma MinusSignNotCaptured(x: string, y: string)
    ensures FindDigitRuns(x + "-" + y) == FindDigitRuns(x) + FindDigitRuns(y)
  {
    NonDigitSplits(x, '-', y);
  }

  /** The numbers of a single digit. */
  lemma SingleDigit(d: char)
    requires IsDigit(d)
    ensures FindDigitRuns([d]) == [[d]]
  {
    assert DigitPrefixLength([d]) == 1;
    assert [d][..1] == [d] && [d][1..] == "";
  }

  /** The difference reported for "3-5" is negative. */
  lemma NegativeDifference()
    ensures SubtractNumbers("3-5") == Success("The result of 3 - 5 is -2")
  {
    MinusSignNotCaptured("3", "5");
    assert "3" + "-" + "5" == "3-5";
    SingleDigit('3');
    SingleDigit('5');
    assert FindDigitRuns("3-5") == ["3", "5"];
    assert OperandTooLong("3-5").None?;
    assert FirstOperand("3-5") == 3 && SecondOperand("3-5") == 5;
    assert IntToDecimal(3) == "3" && IntToDecimal(5) == "5" && IntToDecimal(-2) == "-2";
    assert DifferenceReport(3, 5) == "The result of 3 - 5 is -2";
  }

  // ---------------------------------------------------------------------
  // The count check of the composite calculator
  // ---------------------------------------------------------------------

  function TimeHeader(currentTime: string): string
  {
    "Current time: " + currentTime + "\n\n"
  }

  const TooFewNumbers := "Error: Please provide at least 2 numbers for calculation."

  /** The early reply of `_simple_calculator`: with fewer than two numbers
      in the input it answers with the time header and an error, before any
      calculator tool is invoked; `None` means it goes on to the tools. */
  function EarlyReply(currentTime: string, inputMessage: string): (r: Option<string>)
    ensures r.Some? <==> |FindDigitRuns(inputMessage)| < 2
    ensures r.Some? ==> r.value == TimeHeader(currentTime) + TooFewNumbers
  {
    var response := TimeHeader(currentTime);
    var numbers := FindDigitRuns(inputMessage);
    if |numbers| < 2 then Some(response + TooFewNumbers) else None
  }

  /** The composite's check and the tools' own check disagree above two
      numbers: with three or more the composite goes on to the tools, and
      every integer tool then answers with its "only supports" message. */
  lemma EarlyReplyVersusTools(currentTime: string, inputMessage: string)
    ensures |FindDigitRuns(inputMessage)| < 2 ==>
              EarlyReply(currentTime, inputMessage).Some?
              && CompareNumbers(inputMessage) == Success(FewerMessage(2, "compare"))
    ensures |FindDigitRuns(inputMessage)| > 2 ==>
              EarlyReply(currentTime, inputMessage).None?
              && CompareNumbers(inputMessage) == Success(MoreMessage(2, "compare"))
              && MultiplyNumbers(inputMessage) == Success(MoreMessage(2, "multiply"))
              && SubtractNumbers(inputMessage) == Success(MoreMessage(2, "subtract"))
  {
  }
}
