/** Roman-numeral interpreter: four terminal expressions, one per decimal place,
    each consuming a prefix of a shared input string and adding to an integer
    accumulator held by a Context. */
module InterpreterPattern {

  /** An expression is its table of symbols and its multiplier: the virtual
      One/Four/Five/Nine/Multiplier members of the source. Every One symbol
      is a single character. */
  datatype Expression = Expression(one: char, four: string, five: string, nine: string, multiplier: nat)

  /** ThousandExpression has no four, five or nine: it uses a single space. */
  const Thousand := Expression('M', " ", " ", " ", 1000)
  const Hundred := Expression('C', "CD", "D", "CM", 100)
  const Ten := Expression('X', "XL", "L", "XC", 10)
  const One := Expression('I', "IV", "V", "IX", 1)

  /** `s.find(p) == 0` for a non-empty pattern p. */
  predicate StartsWith(s: string, p: string) {
    p <= s
  }

  /** The value of the one special branch Interpret takes (nine, four, five,
      tested in that order), or 0 when none matches. */
  function LeadValue(e: Expression, s: string): int {
    if StartsWith(s, e.nine) then 9
    else if StartsWith(s, e.four) then 4
    else if StartsWith(s, e.five) then 5
    else 0
  }

  /** How many characters that branch strips: always 2 for nine and four and 1
      for five, whatever the length of the symbol that matched. */
  function LeadWidth(e: Expression, s: string): nat {
    if StartsWith(s, e.nine) then 2
    else if StartsWith(s, e.four) then 2
    else if StartsWith(s, e.five) then 1
    else 0
  }

  /** The number of iterations of the loop that strips One symbols. */
  function LeadingOnes(e: Expression, s: string): (n: nat)
    ensures n <= |s|
    ensures n == |s| || s[n] != e.one
    decreases |s|
  {
    if StartsOne(e, s) then 1 + LeadingOnes(e, s[1..]) else 0
  }

  /** `s.find(One()) == 0`, for a One symbol of one character. */
  predicate StartsOne(e: Expression, s: string) {
    |s| > 0 && s[0] == e.one
  }

  /** The run counted is made of One symbols only. */
  lemma {:induction false} LeadingOnesAreOnes(e: Expression, s: string, i: nat)
    requires i < LeadingOnes(e, s)
    ensures s[i] == e.one
    decreases |s|
  {
    if i > 0 {
      LeadingOnesAreOnes(e, s[1..], i - 1);
    }
  }

  /** What one Interpret call does to the context: either the new input and the
      amount added to the output, or the std::out_of_range thrown by
      `substr(2, ...)` on a one-character input, after the output has already
      been increased. */
  datatype Outcome = Consumed(rest: string, added: int) | OutOfRange(added: int)

  function Interpretation(e: Expression, s: string): Outcome
  {
    if |s| == 0 then Consumed(s, 0)
    else
      var width := LeadWidth(e, s);
      if |s| < width then OutOfRange(LeadValue(e, s) * e.multiplier)
      else
        var t := s[width..];
        var n := LeadingOnes(e, t);
        Consumed(t[n..], (LeadValue(e, s) + n) * e.multiplier)
  }

  /** Interpret only removes a prefix of the input and never decreases the
      output. */
  lemma InterpretationShape(e: Expression, s: string)
    ensures var o := Interpretation(e, s);
            && (o.Consumed? ==> |o.rest| <= |s| && o.rest == s[|s| - |o.rest|..])
            && o.added >= 0
  {
    if |s| > 0 {
      var w := LeadWidth(e, s);
      var v: nat := LeadValue(e, s);
      if w <= |s| {
        var u := s[w..];
        var n := LeadingOnes(e, u);
        var rest := u[n..];
        assert |rest| == |s| - (w + n) && rest == s[w + n..];
        var m: nat := e.multiplier;
        var added: nat := (v + n) * m;
        Consume(e, s, w, u, n, rest);
      } else {
        var m: nat := e.multiplier;
        var added: nat := v * m;
      }
    }
  }

  /** Of the four terminal expressions, only Thousand on a lone space throws:
      every other two-character branch matched a symbol of two characters. */
  lemma OutOfRangeExactly(e: Expression, s: string)
    requires e in ParseTree
    ensures Interpretation(e, s).OutOfRange? <==> e == Thousand && s == " "
  {
    if e == Thousand && s == " " {
      assert StartsWith(s, e.nine);
    } else if |s| == 1 && e == Thousand {
      Differs(s, " ", 0);
    }
  }

  /** Runs expressions in order over one shared input, as main's loop does;
      the first exception ends the run (it is not caught). */
  function Pipeline(es: seq<Expression>, s: string): Outcome
    decreases |es|
  {
    if es == [] then Consumed(s, 0)
    else
      match Interpretation(es[0], s)
      case OutOfRange(a) => OutOfRange(a)
      case Consumed(rest, a) => Shifted(a, Pipeline(es[1..], rest))
  }

  function Shifted(a: int, o: Outcome): Outcome {
    match o
    case Consumed(rest, b) => Consumed(rest, a + b)
    case OutOfRange(b) => OutOfRange(a + b)
  }

  /** One step of a run: the first expression either throws or hands the
      rest of the input on. */
  lemma Unroll(es: seq<Expression>, s: string)
    requires |es| > 0
    ensures var o := Interpretation(es[0], s);
            && (o.OutOfRange? ==> Pipeline(es, s) == OutOfRange(o.added))
            && (o.Consumed? ==> Pipeline(es, s) == Shifted(o.added, Pipeline(es[1..], o.rest)))
  {
  }

  lemma ShiftedShifted(a: int, b: int, o: Outcome)
    ensures Shifted(a, Shifted(b, o)) == Shifted(a + b, o)
  {
  }

  /** The parse tree built in main. */
  const ParseTree: seq<Expression> := [Thousand, Hundred, Ten, One]

  class Context {
    var input: string
    var output: int

    constructor (input: string)
      ensures this.input == input && output == 0
    {
      this.input := input;
      output := 0;
    }
  }

  /** Expression::Interpret. Returns false when std::out_of_range is thrown. */
  method Interpret(e: Expression, context: Context) returns (ok: bool)
    modifies context
    ensures ok <==> Interpretation(e, old(context.input)).Consumed?
    ensures ok ==> context.input == Interpretation(e, old(context.input)).rest
    ensures !ok ==> context.input == old(context.input)
    ensures context.output == old(context.output) + Interpretation(e, old(context.input)).added
  {
    // the source binds references to the two fields; here they are read once
    // and written back wherever the call ends
    var input, output := context.input, context.output;
    ok := true;
    if |input| == 0 {
      return;
    }
    ghost var s := input;
    ghost var lead := LeadValue(e, s) * e.multiplier;
    if StartsWith(input, e.nine) {
      assert LeadWidth(e, s) == 2 && lead == 9 * e.multiplier;
      output := output + 9 * e.multiplier;
      if |input| < 2 {
        context.output := output;
        ok := false;
        Thrown(e, s);
        return;
      }
      input := input[2..];
    } else if StartsWith(input, e.four) {
      assert LeadWidth(e, s) == 2 && lead == 4 * e.multiplier;
      output := output + 4 * e.multiplier;
      if |input| < 2 {
        context.output := output;
        ok := false;
        Thrown(e, s);
        return;
      }
      input := input[2..];
    } else if StartsWith(input, e.five) {
      assert LeadWidth(e, s) == 1 && lead == 5 * e.multiplier;
      output := output + 5 * e.multiplier;
      input := input[1..];
    } else {
      assert LeadWidth(e, s) == 0 && lead == 0;
    }
    ghost var t := input;
    ghost var k := 0;
    while StartsOne(e, input)
      invariant 0 <= k <= |t| && input == t[k..]
      invariant k + LeadingOnes(e, input) == LeadingOnes(e, t)
      invariant output == old(context.output) + lead + k * e.multiplier
      decreases |input|
    {
      output := output + e.multiplier;
      input := input[1..];
      k := k + 1;
    }
    context.input, context.output := input, output;
    Call(e, s, LeadWidth(e, s), k);
  }

  /** main's loop: every expression of the tree interprets the context in
      turn. */
  method InterpretAll(tree: seq<Expression>, context: Context) returns (ok: bool)
    modifies context
    ensures var o := Shifted(old(context.output), Pipeline(tree, old(context.input)));
            && (ok <==> o.Consumed?)
            && context.output == o.added
            && (ok ==> context.input == o.rest)
  {
    var i := 0;
    ok := true;
    while i < |tree|
      invariant 0 <= i <= |tree|
      invariant Shifted(context.output, Pipeline(tree[i..], context.input))
             == Shifted(old(context.output), Pipeline(tree, old(context.input)))
    {
      ghost var output, input := context.output, context.input;
      assert tree[i..][0] == tree[i] && tree[i..][1..] == tree[i + 1..];
      Unroll(tree[i..], input);
      ok := Interpret(tree[i], context);
      if !ok {
        return;
      }
      ShiftedShifted(output, Interpretation(tree[i], input).added, Pipeline(tree[i + 1..], context.input));
      i := i + 1;
    }
  }

  /** main: interpret a numeral with the four expressions in place order. */
  method Evaluate(roman: string) returns (value: int, ok: bool)
    ensures ok <==> Pipeline(ParseTree, roman).Consumed?
    ensures value == Pipeline(ParseTree, roman).added
  {
    var context := new Context(roman);
    ok := InterpretAll(ParseTree, context);
    value := context.output;
  }

  /** Dividing what one call consumed: the fixed-width branch, then a run of
      One symbols, not followed by another. */
  lemma InterpretationValue(e: Expression, s: string)
    requires |s| > 0 && Interpretation(e, s).Consumed?
    ensures var o := Interpretation(e, s);
            var w := LeadWidth(e, s);
            var n := |s| - w - |o.rest|;
            && 0 <= n
            && o.added == (LeadValue(e, s) + n) * e.multiplier
            && (forall i :: w <= i < w + n ==> s[i] == e.one)
            && !StartsOne(e, o.rest)
  {
    var w := LeadWidth(e, s);
    var t := s[w..];
    var n := LeadingOnes(e, t);
    Call(e, s, w, n);
    assert |s[w + n..]| == |s| - w - n;
    assert n < |t| ==> s[w + n..][0] == t[n];
    forall i | w <= i < w + n ensures s[i] == e.one {
      LeadingOnesAreOnes(e, t, i - w);
      assert s[i] == t[i - w];
    }
  }

  /** On an empty input Interpret returns at once: nothing changes. */
  lemma EmptyInput(e: Expression)
    ensures Interpretation(e, "") == Consumed("", 0)
  {
  }

  /** A leading character that starts no symbol of the expression is left in
      the input, and nothing is added. */
  lemma UnmatchedLeadingCharacter(e: Expression, s: string)
    requires e in ParseTree && |s| > 0
    requires s[0] != e.one && s[0] != e.four[0]
    requires s[0] != e.five[0] && s[0] != e.nine[0]
    ensures Interpretation(e, s) == Consumed(s, 0)
  {
    Differs(s, e.nine, 0);
    Differs(s, e.four, 0);
    Differs(s, e.five, 0);
    Call(e, s, 0, 0);
  }

  /** One place can be repeated without bound: n One symbols add n times the
      multiplier. */
  lemma {:induction false} LeadingOnesOfRun(e: Expression, n: nat, rest: string)
    requires !StartsOne(e, rest)
    ensures LeadingOnes(e, Run(e.one, n) + rest) == n
  {
    if n > 0 {
      var u := Run(e.one, n - 1) + rest;
      assert Run(e.one, n) + rest == [e.one] + u;
      assert ([e.one] + u)[1..] == u;
      LeadingOnesOfRun(e, n - 1, rest);
    }
  }

  /** n copies of c. */
  function Run(c: char, n: nat): (r: string)
    ensures |r| == n
  {
    if n == 0 then [] else [c] + Run(c, n - 1)
  }

  /** Interpret strips w characters, leaving u, then n One symbols, leaving
      rest. */
  lemma Consume(e: Expression, s: string, w: nat, u: string, n: nat, rest: string)
    requires |s| > 0 && LeadWidth(e, s) == w <= |s| && s[w..] == u
    requires LeadingOnes(e, u) == n && u[n..] == rest
    ensures Interpretation(e, s) == Consumed(rest, (LeadValue(e, s) + n) * e.multiplier)
  {
  }

  /** Assembles one call from the branch it takes and the length of the run
      of One symbols after it. */
  lemma Call(e: Expression, s: string, w: nat, n: nat)
    requires |s| > 0 && LeadWidth(e, s) == w <= |s| && LeadingOnes(e, s[w..]) == n
    ensures Interpretation(e, s) == Consumed(s[w + n..], (LeadValue(e, s) + n) * e.multiplier)
  {
    assert s[w..][n..] == s[w + n..];
  }

  /** The two-character branches throw on a one-character input. */
  lemma Thrown(e: Expression, s: string)
    requires 0 < |s| < LeadWidth(e, s)
    ensures Interpretation(e, s) == OutOfRange(LeadValue(e, s) * e.multiplier)
  {
  }

  /** A pattern is not a prefix when some character differs. */
  lemma Differs(s: string, p: string, i: nat)
    requires i < |p| && i < |s| && s[i] != p[i]
    ensures !StartsWith(s, p)
  {
  }

  /** A pattern is a prefix of itself followed by anything. */
  lemma PrefixOf(p: string, rest: string)
    ensures StartsWith(p + rest, p)
  {
  }

  /** The shape shared by the Hundred, Ten and One tables: two-character
      nine and four symbols that begin with the One symbol and differ in
      their second character, and a one-character five symbol. */
  predicate Positional(e: Expression) {
    && |e.nine| == 2 && |e.four| == 2 && |e.five| == 1
    && e.nine[0] == e.one && e.four[0] == e.one
    && e.nine[1] != e.one && e.four[1] != e.one && e.nine[1] != e.four[1]
    && e.five[0] != e.one
  }

  /** The canonical way of writing digit d at the place of e. */
  function Digit(e: Expression, d: nat): string
    requires d <= 9
  {
    if d == 9 then e.nine
    else if d == 4 then e.four
    else if d >= 5 then e.five + Run(e.one, d - 5)
    else Run(e.one, d)
  }

  /** An input that a place leaves alone: it does not start with a character
      that can begin or continue one of its symbols. */
  predicate Untouched(e: Expression, rest: string)
    requires Positional(e)
  {
    Avoids(rest, Reserved(e))
  }

  /** The characters that begin or continue a symbol of a place. */
  function Reserved(e: Expression): set<char>
    requires Positional(e)
  {
    {e.one, e.five[0], e.nine[1], e.four[1]}
  }

  /** The characters a canonical digit of a place can begin with. */
  function Initials(e: Expression): set<char>
    requires Positional(e)
  {
    {e.one, e.five[0]}
  }

  predicate Avoids(s: string, cs: set<char>) {
    |s| == 0 || s[0] !in cs
  }

  /** A canonical digit followed by lower places is consumed exactly, adding
      the digit times the multiplier. */
  lemma DigitStep(e: Expression, d: nat, rest: string)
    requires Positional(e) && d <= 9 && Untouched(e, rest)
    ensures Interpretation(e, Digit(e, d) + rest) == Consumed(rest, d * e.multiplier)
  {
    if d == 9 {
      NineStep(e, rest);
    } else if d == 4 {
      FourStep(e, rest);
    } else if d >= 5 {
      assert Digit(e, d) + rest == e.five + (Run(e.one, d - 5) + rest);
      FiveStep(e, d - 5, rest);
    } else {
      OnesStep(e, d, rest);
    }
  }

  lemma NineStep(e: Expression, rest: string)
    requires Positional(e) && Untouched(e, rest)
    ensures Interpretation(e, e.nine + rest) == Consumed(rest, 9 * e.multiplier)
  {
    var s := e.nine + rest;
    assert !StartsOne(e, rest);
    PrefixOf(e.nine, rest);
    assert s[2..] == rest;
    Consume(e, s, 2, rest, 0, rest);
  }

  lemma FourStep(e: Expression, rest: string)
    requires Positional(e) && Untouched(e, rest)
    ensures Interpretation(e, e.four + rest) == Consumed(rest, 4 * e.multiplier)
  {
    var s := e.four + rest;
    assert !StartsOne(e, rest);
    PrefixOf(e.four, rest);
    assert s[2..] == rest;
    Differs(s, e.nine, 1);
    Consume(e, s, 2, rest, 0, rest);
  }

  lemma FiveStep(e: Expression, k: nat, rest: string)
    requires Positional(e) && k <= 3 && Untouched(e, rest)
    ensures Interpretation(e, e.five + (Run(e.one, k) + rest)) == Consumed(rest, (5 + k) * e.multiplier)
  {
    var u := Run(e.one, k) + rest;
    var s := e.five + u;
    assert s[0] == e.five[0] && s[1..] == u && u[k..] == rest;
    FiveLead(e, s);
    LeadingOnesOfRun(e, k, rest);
    Consume(e, s, 1, u, k, rest);
  }

  /** An input starting with the five symbol takes the five branch. */
  lemma FiveLead(e: Expression, s: string)
    requires Positional(e) && |s| > 0 && s[0] == e.five[0]
    ensures LeadWidth(e, s) == 1 && LeadValue(e, s) == 5
  {
    Differs(s, e.nine, 0);
    Differs(s, e.four, 0);
  }

  /** An input starting with a One symbol not followed by the second
      character of the nine or four symbols takes no special branch. */
  lemma OneLead(e: Expression, s: string)
    requires Positional(e) && |s| > 0 && s[0] == e.one
    requires |s| == 1 || (s[1] != e.nine[1] && s[1] != e.four[1])
    ensures LeadWidth(e, s) == 0 && LeadValue(e, s) == 0
  {
    if |s| > 1 {
      Differs(s, e.nine, 1);
      Differs(s, e.four, 1);
    }
    Differs(s, e.five, 0);
  }

  /** An input starting with no symbol of the place takes no special
      branch. */
  lemma NoLead(e: Expression, s: string)
    requires Positional(e) && |s| > 0 && s[0] != e.one && s[0] != e.five[0]
    ensures LeadWidth(e, s) == 0 && LeadValue(e, s) == 0
  {
    Differs(s, e.nine, 0);
    Differs(s, e.four, 0);
    Differs(s, e.five, 0);
  }

  lemma OnesStep(e: Expression, d: nat, rest: string)
    requires Positional(e) && d <= 3 && Untouched(e, rest)
    ensures Interpretation(e, Run(e.one, d) + rest) == Consumed(rest, d * e.multiplier)
  {
    if d == 0 {
      assert Run(e.one, d) + rest == rest;
      if |rest| > 0 {
        NoLead(e, rest);
        assert rest[0..] == rest;
        Consume(e, rest, 0, rest, 0, rest);
      }
    } else {
      RunStep(e, d, rest);
    }
  }

  /** The One loop is unbounded: any positive number of One symbols is
      consumed. */
  lemma RunStep(e: Expression, d: nat, rest: string)
    requires Positional(e) && 0 < d && Untouched(e, rest)
    ensures Interpretation(e, Run(e.one, d) + rest) == Consumed(rest, d * e.multiplier)
  {
    var s := Run(e.one, d) + rest;
    RunShape(e, d, rest);
    OneLead(e, s);
    Consume(e, s, 0, s, d, rest);
  }

  /** What Interpret sees of a run of One symbols followed by a lower place. */
  lemma RunShape(e: Expression, d: nat, rest: string)
    requires Positional(e) && 0 < d && Untouched(e, rest)
    ensures var s := Run(e.one, d) + rest;
            && |s| > 0 && s[0] == e.one
            && (|s| == 1 || (s[1] != e.nine[1] && s[1] != e.four[1]))
            && s[0..] == s && s[d..] == rest
            && LeadingOnes(e, s) == d
  {
    var v := Run(e.one, d - 1);
    var u := v + rest;
    var s := [e.one] + u;
    assert Run(e.one, d) + rest == s;
    assert s[0] == e.one && s[1..] == u && s[0..] == s && s[d..] == rest;
    if |u| > 0 {
      assert s[1] == u[0];
      if d > 1 {
        assert u[0] == v[0] == e.one;
      } else {
        assert u == rest;
      }
    }
    assert !StartsOne(e, rest);
    LeadingOnesOfRun(e, d, rest);
  }

  /** A canonical digit, when not empty, starts with the One or the five
      symbol of its place. */
  lemma DigitStart(e: Expression, d: nat)
    requires Positional(e) && d <= 9
    ensures |Digit(e, d)| == 0 || Digit(e, d)[0] in Initials(e)
  {
  }

  /** Prefixing a digit of a place keeps an input clear of characters that
      place cannot begin with. */
  lemma AvoidsAfter(e: Expression, d: nat, rest: string, cs: set<char>)
    requires Positional(e) && d <= 9 && Avoids(rest, cs) && Initials(e) !! cs
    ensures Avoids(Digit(e, d) + rest, cs)
  {
    DigitStart(e, d);
    if |Digit(e, d)| > 0 {
      assert (Digit(e, d) + rest)[0] == Digit(e, d)[0];
    } else {
      assert Digit(e, d) + rest == rest;
    }
  }

  /** Thousands are written as a run of M, which Thousand consumes whole. */
  lemma ThousandsStep(m: nat, rest: string)
    requires Avoids(rest, {'M', ' '})
    ensures Interpretation(Thousand, Run('M', m) + rest) == Consumed(rest, 1000 * m)
  {
    var s := Run('M', m) + rest;
    assert !StartsOne(Thousand, rest);
    if |s| > 0 {
      Differs(s, " ", 0);
      assert s[0..] == s && s[m..] == rest;
      LeadingOnesOfRun(Thousand, m, rest);
      Call(Thousand, s, 0, m);
    }
  }

  /** A canonical numeral: any number of thousands, then three digits. */
  function Numeral(m: nat, h: nat, t: nat, o: nat): string
    requires h <= 9 && t <= 9 && o <= 9
  {
    Run('M', m) + (Digit(Hundred, h) + (Digit(Ten, t) + Digit(One, o)))
  }

  /** main's parse tree evaluates every canonical numeral to its value and
      consumes it entirely. */
  lemma NumeralValue(m: nat, h: nat, t: nat, o: nat)
    requires h <= 9 && t <= 9 && o <= 9
    ensures Pipeline(ParseTree, Numeral(m, h, t, o)) == Consumed("", 1000 * m + 100 * h + 10 * t + o)
  {
    Tables();
    PlacesValue(Hundred, Ten, One, m, h, t, o);
  }

  /** The three positional tables of main and how they relate. */
  lemma Tables()
    ensures Positional(Hundred) && Positional(Ten) && Positional(One)
    ensures Initials(Ten) !! Reserved(Hundred) && Initials(One) !! Reserved(Hundred)
    ensures Initials(One) !! Reserved(Ten)
    ensures Initials(Hundred) !! {'M', ' '} && Initials(Ten) !! {'M', ' '} && Initials(One) !! {'M', ' '}
  {
  }

  /** A thousands run and three positional places whose symbols do not clash
      are read back to their value by Thousand and the three places. */
  lemma PlacesValue(b: Expression, c: Expression, d: Expression, m: nat, h: nat, t: nat, o: nat)
    requires Positional(b) && Positional(c) && Positional(d) && h <= 9 && t <= 9 && o <= 9
    requires Initials(c) !! Reserved(b) && Initials(d) !! Reserved(b) && Initials(d) !! Reserved(c)
    requires Initials(b) !! {'M', ' '} && Initials(c) !! {'M', ' '} && Initials(d) !! {'M', ' '}
    ensures Pipeline([Thousand, b, c, d], Run('M', m) + (Digit(b, h) + (Digit(c, t) + Digit(d, o))))
         == Consumed("", 1000 * m + h * b.multiplier + t * c.multiplier + o * d.multiplier)
  {
    var ones := Digit(d, o);
    var tens := Digit(c, t) + ones;
    var hundreds := Digit(b, h) + tens;
    DigitStep(d, o, "");
    assert ones + "" == ones;
    AvoidsAfter(d, o, "", Reserved(c));
    DigitStep(c, t, ones);
    AvoidsAfter(d, o, "", Reserved(b));
    AvoidsAfter(c, t, ones, Reserved(b));
    DigitStep(b, h, tens);
    AvoidsAfter(d, o, "", {'M', ' '});
    AvoidsAfter(c, t, ones, {'M', ' '});
    AvoidsAfter(b, h, tens, {'M', ' '});
    ThousandsStep(m, hundreds);
    FourPlaces(Thousand, b, c, d, Run('M', m) + hundreds, hundreds, tens, ones, 1000 * m, h * b.multiplier, t * c.multiplier, o * d.multiplier);
  }

  /** Four expressions in a row, each consuming what the previous left. */
  lemma FourPlaces(a: Expression, b: Expression, c: Expression, d: Expression,
                   s0: string, s1: string, s2: string, s3: string,
                   v0: int, v1: int, v2: int, v3: int)
    requires Interpretation(a, s0) == Consumed(s1, v0)
    requires Interpretation(b, s1) == Consumed(s2, v1)
    requires Interpretation(c, s2) == Consumed(s3, v2)
    requires Interpretation(d, s3) == Consumed("", v3)
    ensures Pipeline([a, b, c, d], s0) == Consumed("", v0 + v1 + v2 + v3)
  {
    PipelineCons(d, [], s3, "", v3);
    assert [d] + [] == [d];
    PipelineCons(c, [d], s2, s3, v2);
    assert [c] + [d] == [c, d];
    PipelineCons(b, [c, d], s1, s2, v1);
    assert [b] + [c, d] == [b, c, d];
    PipelineCons(a, [b, c, d], s0, s1, v0);
    assert [a] + [b, c, d] == [a, b, c, d];
  }

  lemma PipelineCons(e: Expression, es: seq<Expression>, s: string, rest: string, a: int)
    requires Interpretation(e, s) == Consumed(rest, a)
    ensures Pipeline([e] + es, s) == Shifted(a, Pipeline(es, rest))
  {
    assert ([e] + es)[1..] == es;
  }

  /** main prints MCMXXVIII=1928. */
  lemma MainTrace()
    ensures Pipeline(ParseTree, "MCMXXVIII") == Consumed("", 1928)
  {
    NumeralValue(1, 9, 2, 8);
    assert Numeral(1, 9, 2, 8) == "MCMXXVIII";
  }

  /** "VIII" gives 8, "IX" gives 9 and the non-canonical "IIII" gives 4. */
  lemma OneExamples()
    ensures Interpretation(One, "VIII") == Consumed("", 8)
    ensures Interpretation(One, "IX") == Consumed("", 9)
    ensures Interpretation(One, "IIII") == Consumed("", 4)
  {
    Tables();
    DigitStep(One, 8, "");
    assert Digit(One, 8) + "" == "VIII";
    DigitStep(One, 9, "");
    assert Digit(One, 9) + "" == "IX";
    RunStep(One, 4, "");
    assert Run('I', 4) + "" == "IIII";
  }

  /** "MMMM" gives 4000. */
  lemma ThousandExample()
    ensures Interpretation(Thousand, "MMMM") == Consumed("", 4000)
  {
    ThousandsStep(4, "");
    assert Run('M', 4) + "" == "MMMM";
  }

  /** Thousand reads a leading space as its nine symbol and strips two
      characters, whatever the second one is; a run of M after them is then
      counted as well. */
  lemma LeadingSpace(s: string)
    requires |s| >= 2 && s[0] == ' '
    ensures var n := LeadingOnes(Thousand, s[2..]);
            Interpretation(Thousand, s) == Consumed(s[2 + n..], (9 + n) * 1000)
  {
    assert StartsWith(s, " ");
    Call(Thousand, s, 2, LeadingOnes(Thousand, s[2..]));
  }

  /** " X" adds 9000, and its X is stripped together with the space. */
  lemma LeadingSpaceExample()
    ensures Interpretation(Thousand, " X") == Consumed("", 9000)
  {
    LeadingSpace(" X");
    assert " X"[2..] == "";
  }
}
