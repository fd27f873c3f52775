/**
 * The part of Go's fmt.Sprintf that the access log uses: literal text, the
 * `%s` verb applied to a string argument, the `%d` verb applied to an integer
 * argument, and `%%`. Go reports a verb that does not match its argument, a
 * missing or an extra argument by writing "%!..." text into the output; here
 * each of those cases yields None instead.
 */
module Fmt {
  import opened Wrappers
  import Decimal

  datatype Arg = Str(s: string) | Int(i: int)

  /** The verb that prints `a` without error. */
  function Verb(a: Arg): string {
    match a
    case Str(_) => "%s"
    case Int(_) => "%d"
  }

  /** The text that verb writes for `a`. */
  function Show(a: Arg): string {
    match a
    case Str(s) => s
    case Int(i) => Decimal.IntToString(i)
  }

  function Prepend(prefix: string, r: Option<string>): (r': Option<string>)
    ensures r'.Some? <==> r.Some?
    ensures r.Some? ==> r'.value == prefix + r.value
  {
    match r
    case None => None
    case Some(s) => Some(prefix + s)
  }

  lemma PrependEmpty(r: Option<string>)
    ensures Prepend("", r) == r
  {
    if r.Some? {
      assert "" + r.value == r.value;
    }
  }

  lemma PrependPrepend(p: string, q: string, r: Option<string>)
    ensures Prepend(p, Prepend(q, r)) == Prepend(p + q, r)
  {
    if r.Some? {
      assert p + (q + r.value) == p + q + r.value;
    }
  }

  function Sprintf(format: string, args: seq<Arg>): Option<string>
    decreases |format|
  {
    if format == [] then
      if args == [] then Some("") else None
    else if format[0] != '%' then
      Prepend(format[..1], Sprintf(format[1..], args))
    else if |format| == 1 then
      None
    else if format[1] == '%' then
      Prepend("%", Sprintf(format[2..], args))
    else if args == [] then
      None
    else if format[1] == 's' && args[0].Str? then
      Prepend(args[0].s, Sprintf(format[2..], args[1..]))
    else if format[1] == 'd' && args[0].Int? then
      Prepend(Decimal.IntToString(args[0].i), Sprintf(format[2..], args[1..]))
    else
      None
  }

  /** Text without a '%' is copied to the output unchanged. */
  lemma {:induction false} SprintfLiteral(lit: string, rest: string, args: seq<Arg>)
    requires '%' !in lit
    ensures Sprintf(lit + rest, args) == Prepend(lit, Sprintf(rest, args))
    decreases |lit|
  {
    if lit != [] {
      var f := lit + rest;
      assert f[0] == lit[0] && f[..1] == lit[..1];
      assert f[1..] == lit[1..] + rest;
      SprintfLiteral(lit[1..], rest, args);
      PrependPrepend(lit[..1], lit[1..], Sprintf(rest, args));
      assert lit[..1] + lit[1..] == lit;
    } else {
      assert lit + rest == rest;
      PrependEmpty(Sprintf(rest, args));
    }
  }

  /** A verb that matches its argument consumes it and writes its text. */
  lemma SprintfVerb(a: Arg, rest: string, args: seq<Arg>)
    ensures Sprintf(Verb(a) + rest, [a] + args) == Prepend(Show(a), Sprintf(rest, args))
  {
    var f := Verb(a) + rest;
    assert f[0] == '%' && f[2..] == rest;
    assert ([a] + args)[0] == a && ([a] + args)[1..] == args;
  }

  /** One step of a format: literal text, then a verb matched by the next argument. */
  lemma SprintfPiece(lit: string, a: Arg, rest: string, args: seq<Arg>)
    requires '%' !in lit
    ensures Sprintf(lit + Verb(a) + rest, [a] + args) == Prepend(lit + Show(a), Sprintf(rest, args))
    ensures Sprintf(rest, args).Some? ==>
              Sprintf(lit + Verb(a) + rest, [a] + args) == Some(lit + Show(a) + Sprintf(rest, args).value)
  {
    assert lit + Verb(a) + rest == lit + (Verb(a) + rest);
    SprintfLiteral(lit, Verb(a) + rest, [a] + args);
    SprintfVerb(a, rest, args);
    PrependPrepend(lit, Show(a), Sprintf(rest, args));
  }

  /** A format with no verbs and no arguments prints itself. */
  lemma SprintfPlain(lit: string)
    requires '%' !in lit
    ensures Sprintf(lit, []) == Some(lit)
  {
    SprintfLiteral(lit, "", []);
    assert lit + "" == lit;
  }

  /** A literal text followed by a verb, and the argument that verb consumes. */
  datatype Piece = Piece(lit: string, arg: Arg)

  /** The format string a sequence of pieces spells, ending in `tail`. */
  function Template(ps: seq<Piece>, tail: string): string
    decreases |ps|
  {
    if ps == [] then tail else ps[0].lit + Verb(ps[0].arg) + Template(ps[1..], tail)
  }

  /** The arguments the pieces supply, in order. */
  function PieceArgs(ps: seq<Piece>): (args: seq<Arg>)
    ensures |args| == |ps|
    ensures forall i :: 0 <= i < |ps| ==> args[i] == ps[i].arg
  {
    seq(|ps|, i requires 0 <= i < |ps| => ps[i].arg)
  }

  /** The text each piece contributes: its literal and its argument's rendering. */
  function Filled(ps: seq<Piece>, tail: string): string
    decreases |ps|
  {
    if ps == [] then tail else ps[0].lit + Show(ps[0].arg) + Filled(ps[1..], tail)
  }

  /**
   * A format made of literal texts and verbs, given arguments that match the
   * verbs one for one, yields each literal followed by its argument's text.
   */
  lemma {:induction false} SprintfTemplate(ps: seq<Piece>, tail: string)
    requires forall i :: 0 <= i < |ps| ==> '%' !in ps[i].lit
    requires '%' !in tail
    ensures Sprintf(Template(ps, tail), PieceArgs(ps)) == Some(Filled(ps, tail))
    decreases |ps|
  {
    if ps == [] {
      SprintfPlain(tail);
    } else {
      SprintfTemplate(ps[1..], tail);
      assert PieceArgs(ps) == [ps[0].arg] + PieceArgs(ps[1..]);
      SprintfPiece(ps[0].lit, ps[0].arg, Template(ps[1..], tail), PieceArgs(ps[1..]));
    }
  }
}
