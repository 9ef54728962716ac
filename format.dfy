/** `fmt.Sprintf` for a format whose only verbs are `%s`, each matched by one
    string operand: each `%s` is replaced, left to right, by the next operand. */
module Format {

  /** The result of formatting `format` with the string operands `args`.
      The model agrees with Go only when verbs and operands match one to one.
      Where a `%s` has no operand left, Go writes `%!s(MISSING)`; this model
      copies the `%s` instead. Operands left over after the last verb are
      dropped here, where Go appends `%!(EXTRA string=…)` for them. Neither
      case is exercised: the formats used here have exactly as many `%s`
      verbs as operands (see FormatJoined). */
  function FormatStrings(format: string, args: seq<string>): (r: string)
    ensures Literal(format) ==> r == format
    decreases |format|
  {
    if format == [] then []
    else if |format| >= 2 && format[0] == '%' && format[1] == 's' && args != [] then
      args[0] + FormatStrings(format[2..], args[1..])
    else
      LiteralTail(format);
      [format[0]] + FormatStrings(format[1..], args)
  }

  /** Text that formatting copies as it is: it holds no `%`. */
  predicate Literal(s: string)
  {
    '%' !in s
  }

  /** Dropping the first character of a literal leaves a literal. */
  lemma LiteralTail(s: string)
    requires s != []
    ensures Literal(s) ==> Literal(s[1..])
  {
    if Literal(s) {
      forall i | 0 <= i < |s[1..]| ensures s[1..][i] != '%' {
        assert s[1..][i] == s[i + 1];
      }
    }
  }

  /** A character other than `%` is copied and consumes no operand. */
  lemma FormatChar(c: char, t: string, args: seq<string>)
    requires c != '%'
    ensures FormatStrings([c] + t, args) == [c] + FormatStrings(t, args)
  {
    assert ([c] + t)[1..] == t;
  }

  /** A literal passes through formatting unchanged and consumes no operand. */
  lemma {:induction false} FormatLiteral(lit: string, rest: string, args: seq<string>)
    requires Literal(lit)
    ensures FormatStrings(lit + rest, args) == lit + FormatStrings(rest, args)
    decreases |lit|
  {
    if lit == [] {
      assert lit + rest == rest;
    } else {
      var c, t := lit[0], lit[1..];
      assert lit == [c] + t;
      assert c in lit;
      assert lit + rest == [c] + (t + rest);
      FormatChar(c, t + rest, args);
      LiteralTail(lit);
      FormatLiteral(t, rest, args);
      assert [c] + (t + FormatStrings(rest, args)) == lit + FormatStrings(rest, args);
    }
  }

  /** A `%s` verb is replaced by the next operand. */
  lemma FormatVerb(rest: string, a: string, args: seq<string>)
    ensures FormatStrings("%s" + rest, [a] + args) == a + FormatStrings(rest, args)
  {
  }

  /** A format written as literal pieces separated by `%s` verbs. */
  function JoinVerbs(pieces: seq<string>): string
    requires |pieces| >= 1
  {
    if |pieces| == 1 then pieces[0] else pieces[0] + ("%s" + JoinVerbs(pieces[1..]))
  }

  /** The pieces with the operands between them, in order. */
  function Interleave(pieces: seq<string>, args: seq<string>): string
    requires |pieces| == |args| + 1
  {
    if args == [] then pieces[0] else pieces[0] + (args[0] + Interleave(pieces[1..], args[1..]))
  }

  /** Formatting literal pieces joined by one verb fewer than there are operands puts
      every operand, in order, in the place of its verb: none is dropped or left over. */
  lemma {:induction false} FormatJoined(pieces: seq<string>, args: seq<string>)
    requires |pieces| == |args| + 1
    requires forall i :: 0 <= i < |pieces| ==> Literal(pieces[i])
    ensures FormatStrings(JoinVerbs(pieces), args) == Interleave(pieces, args)
  {
    assert Literal(pieces[0]);
    if args == [] {
      FormatLiteral(pieces[0], "", args);
      assert pieces[0] + "" == pieces[0];
    } else {
      var rest := JoinVerbs(pieces[1..]);
      FormatLiteral(pieces[0], "%s" + rest, args);
      assert args == [args[0]] + args[1..];
      FormatVerb(rest, args[0], args[1..]);
      FormatJoined(pieces[1..], args[1..]);
    }
  }
}
