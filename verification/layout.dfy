/**
 * Reference renderings that the two log layouts are measured against: fields
 * joined by a separator, and a flat JSON object whose members are strings or
 * integers. Split is the reader for the first: it cuts a line at every
 * separator character.
 */
module Layout {
  import Decimal
  import Fmt

  /** `xs` written one after another with `sep` between neighbours. */
  function Join(sep: string, xs: seq<string>): string
    decreases |xs|
  {
    if |xs| == 0 then "" else if |xs| == 1 then xs[0] else xs[0] + sep + Join(sep, xs[1..])
  }

  /** The pieces of `s` between occurrences of `c`; always at least one piece. */
  function Split(c: char, s: string): (pieces: seq<string>)
    ensures |pieces| > 0
    decreases |s|
  {
    if s == [] then
      [""]
    else
      var rest := Split(c, s[1..]);
      if s[0] == c then [""] + rest else [[s[0]] + rest[0]] + rest[1..]
  }

  lemma {:induction false} SplitWithout(c: char, s: string)
    requires c !in s
    ensures Split(c, s) == [s]
    decreases |s|
  {
    if s != [] {
      SplitWithout(c, s[1..]);
      assert [s[0]] + s[1..] == s;
    }
  }

  /** Cutting at a separator splits the pieces of the two sides apart. */
  lemma {:induction false} SplitAround(c: char, a: string, b: string)
    ensures Split(c, a + [c] + b) == Split(c, a) + Split(c, b)
    decreases |a|
  {
    var s := a + [c] + b;
    if a == [] {
      assert s[0] == c && s[1..] == b;
    } else {
      assert s[0] == a[0] && s[1..] == a[1..] + [c] + b;
      SplitAround(c, a[1..], b);
    }
  }

  /**
   * Splitting a joined line gives back every field after the first, provided
   * those fields do not contain the separator; the first field may contain it.
   */
  lemma {:induction false} SplitJoin(c: char, xs: seq<string>)
    requires |xs| > 0
    requires forall i :: 1 <= i < |xs| ==> c !in xs[i]
    ensures Split(c, Join([c], xs)) == Split(c, xs[0]) + xs[1..]
    decreases |xs|
  {
    if |xs| == 1 {
      assert xs[1..] == [];
    } else {
      var tail := xs[1..];
      SplitJoin(c, tail);
      SplitAround(c, xs[0], Join([c], tail));
      SplitWithout(c, tail[0]);
      assert [tail[0]] + tail[1..] == tail;
    }
  }

  datatype JsonValue = JString(s: string) | JNumber(n: int)

  datatype Member = Member(key: string, value: JsonValue)

  /** A string is written between double quotes exactly as it is, without escaping. */
  function RenderValue(v: JsonValue): string {
    match v
    case JString(s) => "\"" + s + "\""
    case JNumber(n) => Decimal.IntToString(n)
  }

  function RenderMember(m: Member): string {
    "\"" + m.key + "\": " + RenderValue(m.value)
  }

  function RenderMembers(ms: seq<Member>): string
    decreases |ms|
  {
    if |ms| == 0 then ""
    else if |ms| == 1 then RenderMember(ms[0])
    else RenderMember(ms[0]) + ", " + RenderMembers(ms[1..])
  }

  /** A one-line JSON object: members in the given order, separated by ", ". */
  function RenderObject(ms: seq<Member>): string {
    "{" + RenderMembers(ms) + "}"
  }

  /** The Sprintf argument that writes a value's text. */
  function ValueArg(v: JsonValue): Fmt.Arg {
    match v
    case JString(s) => Fmt.Str(s)
    case JNumber(n) => Fmt.Int(n)
  }

  /** The quote that opens or closes a value: one for a string, none for a number. */
  function Quote(v: JsonValue): string {
    if v.JString? then "\"" else ""
  }

  /**
   * The object as a Sprintf format: before each value's verb comes `lead`
   * (the opening brace, or the previous value's closing quote and ", "), the
   * quoted key, ": " and the value's opening quote.
   */
  function ObjectPieces(ms: seq<Member>, lead: string): seq<Fmt.Piece>
    decreases |ms|
  {
    if ms == [] then []
    else [Fmt.Piece(lead + "\"" + ms[0].key + "\": " + Quote(ms[0].value), ValueArg(ms[0].value))]
         + ObjectPieces(ms[1..], Quote(ms[0].value) + ", ")
  }

  /** What the format ends with: the last value's closing quote and the closing brace. */
  function ObjectTail(ms: seq<Member>): string {
    (if ms == [] then "" else Quote(ms[|ms| - 1].value)) + "}"
  }

  /** Filling the object's format with its values writes the object, after `lead`. */
  lemma {:induction false} FilledObject(ms: seq<Member>, lead: string)
    requires |ms| > 0
    ensures Fmt.Filled(ObjectPieces(ms, lead), ObjectTail(ms)) == lead + RenderMembers(ms) + "}"
    decreases |ms|
  {
    var m, rest := ms[0], ms[1..];
    var q, text := Quote(m.value), Fmt.Show(ValueArg(m.value));
    var ps := ObjectPieces(ms, lead);
    assert RenderValue(m.value) == q + text + q;
    assert ps[0] == Fmt.Piece(lead + "\"" + m.key + "\": " + q, ValueArg(m.value));
    assert ps[1..] == ObjectPieces(rest, q + ", ");
    if |ms| == 1 {
      assert Fmt.Filled(ps[1..], ObjectTail(ms)) == q + "}";
      RegroupLast(lead, "\"", m.key, "\": ", q, text, "}");
    } else {
      FilledObject(rest, q + ", ");
      assert ObjectTail(rest) == ObjectTail(ms);
      assert RenderMembers(ms) == RenderMember(m) + ", " + RenderMembers(rest);
      RegroupNext(lead, "\"", m.key, "\": ", q, text, ", ", RenderMembers(rest), "}");
    }
  }

  lemma RegroupLast(lead: string, quote: string, key: string, colon: string, q: string, text: string, close: string)
    ensures lead + quote + key + colon + q + text + (q + close)
         == lead + (quote + key + colon + (q + text + q)) + close
  {
  }

  lemma RegroupNext(lead: string, quote: string, key: string, colon: string, q: string, text: string,
                    sep: string, rest: string, close: string)
    ensures lead + quote + key + colon + q + text + (q + sep + rest + close)
         == lead + ((quote + key + colon + (q + text + q)) + sep + rest) + close
  {
  }
}
