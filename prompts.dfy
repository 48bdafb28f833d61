/**
  The two interactive prompts of the prototype generator. `choice` asks again
  until a line parses to an option number; `multiChoice` reads one line of
  comma-separated numbers and keeps the valid ones. The terminal is modelled
  by the sequence of lines the user types; printing the menu is left out.
*/
module Prompts {
  import opened Wrappers
  import opened Text
  import opened JsParse

  /** One menu entry `{ label, value, description }`, the label kept as `caption`. */
  datatype MenuOption<T> = MenuOption(caption: string, description: string, value: T)

  /** The option number a line selects in a menu of `n` entries, if any:
      `parseInt` of the line, rejected when NaN, below 1 or above `n`. */
  function Accepted(line: string, n: nat): (k: Option<nat>)
    ensures k.Some? ==> 1 <= k.value <= n && ParseInt(line) == Some(k.value as int)
    ensures k.None? ==> ParseInt(line).None? || ParseInt(line).value < 1 || ParseInt(line).value > n
  {
    match ParseInt(line)
    case None => None
    case Some(a) => if 1 <= a <= n then Some(a as nat) else None
  }

  /** What `choice` answers on `lines`, as a value: the value of the option
      the first accepted line numbers, with the number of lines read up to
      and including it; `None` when no line is accepted. */
  function Chosen<T>(options: seq<MenuOption<T>>, lines: seq<string>): (r: Option<(T, nat)>)
    ensures r.Some? ==> 1 <= r.value.1 <= |lines|
    decreases |lines|
  {
    if lines == [] then None
    else match Accepted(lines[0], |options|)
      case Some(k) => Some((options[k - 1].value, 1))
      case None =>
        match Chosen(options, lines[1..])
        case None => None
        case Some(p) => Some((p.0, p.1 + 1))
  }

  /** Rejected lines only delay the answer: after `i` rejected lines, the
      answer is the one given by the rest, `i` lines later. */
  lemma {:induction false} ChosenSkipsRejected<T>(options: seq<MenuOption<T>>, lines: seq<string>, i: nat)
    requires i <= |lines|
    requires forall j :: 0 <= j < i ==> Accepted(lines[j], |options|).None?
    ensures Chosen(options, lines).None? <==> Chosen(options, lines[i..]).None?
    ensures Chosen(options, lines).Some? ==>
              Chosen(options, lines).value == (Chosen(options, lines[i..]).value.0, Chosen(options, lines[i..]).value.1 + i)
  {
    if i > 0 {
      assert lines[1..][i - 1..] == lines[i..];
      ChosenSkipsRejected(options, lines[1..], i - 1);
    }
  }

  /** `choice`: read lines until one is accepted and return the value of the
      option it numbers. `used` is the number of lines read. When the input
      ends first the prompt never resolves, modelled as `None`. */
  method Choice<T>(options: seq<MenuOption<T>>, lines: seq<string>) returns (r: Option<T>, used: nat)
    ensures used <= |lines|
    ensures forall j :: 0 <= j < used - 1 ==> Accepted(lines[j], |options|).None?
    ensures r.Some? ==> used >= 1 && Accepted(lines[used - 1], |options|).Some?
                        && r.value == options[Accepted(lines[used - 1], |options|).value - 1].value
    ensures r.None? <==> forall j :: 0 <= j < |lines| ==> Accepted(lines[j], |options|).None?
    ensures r.None? <==> Chosen(options, lines).None?
    ensures r.Some? ==> Chosen(options, lines) == Some((r.value, used))
  {
    var i := 0;
    while i < |lines|
      invariant 0 <= i <= |lines|
      invariant forall j :: 0 <= j < i ==> Accepted(lines[j], |options|).None?
    {
      var answer := ParseInt(lines[i]);
      i := i + 1;
      if answer.Some? && 1 <= answer.value <= |options| {
        ChosenSkipsRejected(options, lines, i - 1);
        return Some(options[answer.value - 1].value), i;
      }
    }
    ChosenSkipsRejected(options, lines, i);
    return None, i;
  }

  /** `.map(n => parseInt(n.trim()))`: the number each token reads as. */
  function ParseTokens(tokens: seq<string>): (xs: seq<Option<int>>)
    ensures |xs| == |tokens|
    ensures forall i :: 0 <= i < |tokens| ==> xs[i] == ParseInt(Trim(tokens[i]))
  {
    if tokens == [] then [] else [ParseInt(Trim(tokens[0]))] + ParseTokens(tokens[1..])
  }

  /** `.filter(n => !isNaN(n) && n >= 1 && n <= options.length)`: the numbers that name an
      option of a menu of `n` entries, in their order. */
  function InRange(xs: seq<Option<int>>, n: nat): (ks: seq<nat>)
    ensures |ks| <= |xs|
    ensures forall i :: 0 <= i < |ks| ==> 1 <= ks[i] <= n
  {
    if xs == [] then []
    else if xs[0].Some? && 1 <= xs[0].value <= n then [xs[0].value as nat] + InRange(xs[1..], n)
    else InRange(xs[1..], n)
  }

  /** `.map(idx => options[idx - 1].value)`: the values the option numbers
      name, in order. */
  function ValuesAt<T>(options: seq<MenuOption<T>>, ks: seq<nat>): (vs: seq<T>)
    requires forall i :: 0 <= i < |ks| ==> 1 <= ks[i] <= |options|
    ensures |vs| == |ks|
    ensures forall i :: 0 <= i < |ks| ==> vs[i] == options[ks[i] - 1].value
  {
    if ks == [] then [] else [options[ks[0] - 1].value] + ValuesAt(options, ks[1..])
  }

  /** The option numbers `multiChoice` keeps from a line. */
  function Picked(line: string, n: nat): (ks: seq<nat>)
    ensures |ks| <= |Split(line, ',')|
    ensures forall i :: 0 <= i < |ks| ==> 1 <= ks[i] <= n
  {
    InRange(ParseTokens(Split(line, ',')), n)
  }

  /** `multiChoice` on the line the user typed: every value returned is the
      value of one of the options, and there is at most one per token. */
  function MultiChoice<T>(options: seq<MenuOption<T>>, line: string): (vs: seq<T>)
    ensures |vs| <= |Split(line, ',')|
    ensures forall i :: 0 <= i < |vs| ==> exists k :: 0 <= k < |options| && vs[i] == options[k].value
  {
    var ks := Picked(line, |options|);
    var vs := ValuesAt(options, ks);
    assert forall i :: 0 <= i < |vs| ==> vs[i] == options[ks[i] - 1].value;
    vs
  }

  /** Tokens are filtered independently and in order: the numbers kept from
      two runs of tokens are those kept from each, one after the other. */
  lemma {:induction false} InRangeAppend(a: seq<Option<int>>, b: seq<Option<int>>, n: nat)
    ensures InRange(a + b, n) == InRange(a, n) + InRange(b, n)
  {
    if a == [] {
      assert a + b == b;
    } else {
      assert (a + b)[1..] == a[1..] + b;
      InRangeAppend(a[1..], b, n);
    }
  }

  /** A number is kept exactly when some token reads as it and it names an
      option: NaN and out-of-range tokens are dropped, nothing else is. */
  lemma {:induction false} InRangeMember(xs: seq<Option<int>>, n: nat, k: nat)
    ensures k in InRange(xs, n) <==> 1 <= k <= n && Some(k as int) in xs
  {
    if xs != [] {
      InRangeMember(xs[1..], n, k);
      assert xs == [xs[0]] + xs[1..];
    }
  }

  /** A token that reads as an option number is kept wherever it stands, so a
      repeated number is selected again: duplicates are kept. */
  lemma DuplicatesKept(xs: seq<Option<int>>, k: nat, n: nat)
    requires 1 <= k <= n
    ensures InRange(xs + [Some(k as int), Some(k as int)], n) == InRange(xs, n) + [k, k]
  {
    InRangeAppend(xs, [Some(k as int), Some(k as int)], n);
    assert [Some(k as int), Some(k as int)][1..] == [Some(k as int)];
  }

  /** "5,1,abc,2" splits at its commas into four tokens. */
  lemma MixedLineTokens()
    ensures Split("5,1,abc,2", ',') == ["5", "1", "abc", "2"]
  {
    assert "5,1,abc,2" == "5" + [','] + ("1" + [','] + ("abc" + [','] + "2"));
    SplitNoSeparator("2", ',');
    SplitAppend("abc", "2", ',');
    SplitAppend("1", "abc" + [','] + "2", ',');
    SplitAppend("5", "1" + [','] + ("abc" + [','] + "2"), ',');
  }

  /** A one-digit token reads as its digit. */
  lemma DigitTokenReads(d: nat)
    requires d < 10
    ensures ParseInt(Trim([DigitChar(d)])) == Some(d)
  {
    assert Trim([DigitChar(d)]) == [DigitChar(d)];
    assert NatToString(d) == [DigitChar(d)];
    ParseIntToString(d);
  }

  /** A token of letters reads as NaN. */
  lemma LetterTokenIsNaN()
    ensures ParseInt(Trim("abc")) == None
  {
    assert Trim("abc") == "abc";
    assert TrimStart("abc") == "abc";
    assert DigitRun("abc", false) == [];
  }

  /** The tokens of "5,1,abc,2" read as 5, 1, NaN and 2. */
  lemma MixedLineNumbers()
    ensures ParseTokens(["5", "1", "abc", "2"]) == [Some(5), Some(1), None, Some(2)]
  {
    var tokens := ["5", "1", "abc", "2"];
    var xs := ParseTokens(tokens);
    assert xs[0] == Some(5) by { assert tokens[0] == [DigitChar(5)]; DigitTokenReads(5); }
    assert xs[1] == Some(1) by { assert tokens[1] == [DigitChar(1)]; DigitTokenReads(1); }
    assert xs[2] == None by { LetterTokenIsNaN(); }
    assert xs[3] == Some(2) by { assert tokens[3] == [DigitChar(2)]; DigitTokenReads(2); }
  }

  /** What `multiChoice` reads from the line "5,1,abc,2" before filtering. */
  lemma MixedLineRead(line: string)
    requires line == "5,1,abc,2"
    ensures ParseTokens(Split(line, ',')) == [Some(5), Some(1), None, Some(2)]
  {
    MixedLineTokens();
    MixedLineNumbers();
  }

  /** The numbers kept from the line "5,1,abc,2" in a menu of three: 5 is out
      of range and "abc" is NaN, the rest keep their order. */
  lemma MixedLine()
    ensures InRange([Some(5), Some(1), None, Some(2)], 3) == [1, 2]
  {
    assert [Some(5), Some(1), None, Some(2)][1..] == [Some(1), None, Some(2)];
    assert [Some(1), None, Some(2)][1..] == [None, Some(2)];
    assert [None, Some(2)][1..] == [Some(2)];
  }

  /** `multiChoice` keeps options 1 and 2 from the line "5,1,abc,2" in a
      menu of three. */
  lemma MixedLinePicked()
    ensures Picked("5,1,abc,2", 3) == [1, 2]
  {
    MixedLineRead("5,1,abc,2");
    MixedLine();
  }

  /** "2x" selects option 2: `parseInt` reads the leading digits. */
  lemma LeadingDigitsAccepted()
    ensures Accepted("2x", 4) == Some(2)
  {
    assert TrimStart("2x") == "2x";
    assert !HasHexPrefix("2x");
    assert DigitRun("2x", false) == "2" by {
      assert "2x"[1..] == "x";
      assert DigitRun("x", false) == [];
    }
    assert DecimalValue("2") == 2;
  }
}
