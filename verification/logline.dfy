/**
 * The pure half of logRequestDetails (logs.go:60-73): the message built from
 * one request's fields, in the text or the JSON layout, and the line that
 * log.Logger.Println writes for it. The wall-clock timestamp, the elapsed
 * duration and the date prefix of log.LstdFlags are opaque strings here.
 */
module LogLine {
  import opened Wrappers
  import Decimal
  import Fmt
  import Layout

  /** The two points of a request at which a line is logged. */
  datatype Stage = Start | End

  function StageName(s: Stage): string {
    match s
    case Start => "START"
    case End => "END"
  }

  /** The request fields that reach the log: r.RemoteAddr, r.Method and r.URL.Path. */
  datatype Request = Request(remoteAddr: string, httpMethod: string, path: string)

  /** The one format value that selects the JSON layout. */
  const JsonFormatName: string := "json"

  /** The text format string, written in the seven chunks that each end in a verb. */
  const TextFormat: string := "%s" + " [%s" + "] %s" + " %s" + " %s" + " %d" + " %s"

  /** The JSON format string, written in the seven chunks that each end in a verb. */
  const JsonFormat: string :=
    "{\"timestamp\": \"%s" + "\", \"stage\": \"%s" + "\", \"client_ip\": \"%s" + "\", \"method\": \"%s"
    + "\", \"path\": \"%s" + "\", \"status_code\": %d" + ", \"duration\": \"%s" + "\"}"

  /** The arguments both layouts pass to Sprintf, in the same order. */
  function Args(timestamp: string, stage: Stage, req: Request, statusCode: int, duration: string): seq<Fmt.Arg> {
    [Fmt.Str(timestamp), Fmt.Str(StageName(stage)), Fmt.Str(req.remoteAddr), Fmt.Str(req.httpMethod),
     Fmt.Str(req.path), Fmt.Int(statusCode), Fmt.Str(duration)]
  }

  /** The text layout's seven space-separated fields. */
  function TextFields(timestamp: string, stage: Stage, req: Request, statusCode: int, duration: string): seq<string> {
    [timestamp, "[" + StageName(stage) + "]", req.remoteAddr, req.httpMethod, req.path,
     Decimal.IntToString(statusCode), duration]
  }

  /** The JSON layout's seven members; only status_code is a number. */
  function JsonMembers(timestamp: string, stage: Stage, req: Request, statusCode: int, duration: string): seq<Layout.Member> {
    [Layout.Member("timestamp", Layout.JString(timestamp)),
     Layout.Member("stage", Layout.JString(StageName(stage))),
     Layout.Member("client_ip", Layout.JString(req.remoteAddr)),
     Layout.Member("method", Layout.JString(req.httpMethod)),
     Layout.Member("path", Layout.JString(req.path)),
     Layout.Member("status_code", Layout.JNumber(statusCode)),
     Layout.Member("duration", Layout.JString(duration))]
  }

  /** TextFormat as literal texts, each followed by the verb for its argument. */
  function TextPieces(timestamp: string, stage: Stage, req: Request, statusCode: int, duration: string): seq<Fmt.Piece> {
    [Fmt.Piece("", Fmt.Str(timestamp)), Fmt.Piece(" [", Fmt.Str(StageName(stage))),
     Fmt.Piece("] ", Fmt.Str(req.remoteAddr)), Fmt.Piece(" ", Fmt.Str(req.httpMethod)),
     Fmt.Piece(" ", Fmt.Str(req.path)), Fmt.Piece(" ", Fmt.Int(statusCode)), Fmt.Piece(" ", Fmt.Str(duration))]
  }

  lemma TextTemplate(timestamp: string, stage: Stage, req: Request, statusCode: int, duration: string)
    ensures Fmt.Template(TextPieces(timestamp, stage, req, statusCode, duration), "") == TextFormat
  {
    var ps := TextPieces(timestamp, stage, req, statusCode, duration);
    var c0, c1, c2, c3, c4, c5, c6 := "%s", " [%s", "] %s", " %s", " %s", " %d", " %s";
    assert Fmt.Template(ps[7..], "") == "";
    assert ps[6].lit + Fmt.Verb(ps[6].arg) == c6;
    assert Fmt.Template(ps[6..], "") == c6 + "";
    assert ps[5].lit + Fmt.Verb(ps[5].arg) == c5;
    assert Fmt.Template(ps[5..], "") == c5 + (c6 + "");
    assert ps[4].lit + Fmt.Verb(ps[4].arg) == c4;
    assert Fmt.Template(ps[4..], "") == c4 + (c5 + (c6 + ""));
    assert ps[3].lit + Fmt.Verb(ps[3].arg) == c3;
    assert Fmt.Template(ps[3..], "") == c3 + (c4 + (c5 + (c6 + "")));
    assert ps[2].lit + Fmt.Verb(ps[2].arg) == c2;
    assert Fmt.Template(ps[2..], "") == c2 + (c3 + (c4 + (c5 + (c6 + ""))));
    assert ps[1].lit + Fmt.Verb(ps[1].arg) == c1;
    assert Fmt.Template(ps[1..], "") == c1 + (c2 + (c3 + (c4 + (c5 + (c6 + "")))));
    assert ps[0].lit + Fmt.Verb(ps[0].arg) == c0;
    assert Fmt.Template(ps, "") == c0 + (c1 + (c2 + (c3 + (c4 + (c5 + (c6 + ""))))));
    Regroup8(c0, c1, c2, c3, c4, c5, c6, "");
  }

  lemma TextRegroup(a: string, b: string, c: string, d: string, e: string, f: string, g: string)
    ensures "" + a + (" [" + b + ("] " + c + (" " + d + (" " + e + (" " + f + (" " + g))))))
         == a + " [" + b + "] " + c + " " + d + " " + e + " " + f + " " + g
  {
  }

  lemma TextFilled(timestamp: string, stage: Stage, req: Request, statusCode: int, duration: string)
    ensures Fmt.Filled(TextPieces(timestamp, stage, req, statusCode, duration), "")
         == timestamp + " [" + StageName(stage) + "] " + req.remoteAddr + " " + req.httpMethod + " "
            + req.path + " " + Decimal.IntToString(statusCode) + " " + duration
  {
    var ps := TextPieces(timestamp, stage, req, statusCode, duration);
    TextRegroup(timestamp, StageName(stage), req.remoteAddr, req.httpMethod, req.path,
                Decimal.IntToString(statusCode), duration);
    var s6 := " " + duration;
    assert Fmt.Filled(ps[6..], "") == s6;
    var s5 := " " + Decimal.IntToString(statusCode) + s6;
    assert Fmt.Filled(ps[5..], "") == s5;
    var s4 := " " + req.path + s5;
    assert Fmt.Filled(ps[4..], "") == s4;
    var s3 := " " + req.httpMethod + s4;
    assert Fmt.Filled(ps[3..], "") == s3;
    var s2 := "] " + req.remoteAddr + s3;
    assert Fmt.Filled(ps[2..], "") == s2;
    var s1 := " [" + StageName(stage) + s2;
    assert Fmt.Filled(ps[1..], "") == s1;
    assert Fmt.Filled(ps, "") == "" + timestamp + s1;
  }

  /** Sprintf fills TextFormat with the seven arguments, each after its literal text. */
  lemma TextSprintf(timestamp: string, stage: Stage, req: Request, statusCode: int, duration: string)
    ensures Fmt.Sprintf(TextFormat, Args(timestamp, stage, req, statusCode, duration))
         == Some(timestamp + " [" + StageName(stage) + "] " + req.remoteAddr + " " + req.httpMethod + " "
                 + req.path + " " + Decimal.IntToString(statusCode) + " " + duration)
  {
    var ps := TextPieces(timestamp, stage, req, statusCode, duration);
    Fmt.SprintfTemplate(ps, "");
    TextTemplate(timestamp, stage, req, statusCode, duration);
    TextFilled(timestamp, stage, req, statusCode, duration);
    assert Fmt.PieceArgs(ps) == Args(timestamp, stage, req, statusCode, duration);
  }

  /** The flat text line: each field after its literal separator. */
  lemma TextJoin(timestamp: string, stage: Stage, req: Request, statusCode: int, duration: string)
    ensures Layout.Join(" ", TextFields(timestamp, stage, req, statusCode, duration))
         == timestamp + " [" + StageName(stage) + "] " + req.remoteAddr + " " + req.httpMethod + " "
            + req.path + " " + Decimal.IntToString(statusCode) + " " + duration
  {
    var fs := TextFields(timestamp, stage, req, statusCode, duration);
    var code := Decimal.IntToString(statusCode);
    var j6 := duration;
    assert Layout.Join(" ", fs[6..]) == j6;
    var j5 := code + " " + j6;
    assert Layout.Join(" ", fs[5..]) == j5;
    var j4 := req.path + " " + j5;
    assert Layout.Join(" ", fs[4..]) == j4;
    var j3 := req.httpMethod + " " + j4;
    assert Layout.Join(" ", fs[3..]) == j3;
    var j2 := req.remoteAddr + " " + j3;
    assert Layout.Join(" ", fs[2..]) == j2;
    var j1 := "[" + StageName(stage) + "]" + " " + j2;
    assert Layout.Join(" ", fs[1..]) == j1;
    assert Layout.Join(" ", fs) == timestamp + " " + j1;
    JoinRegroup(timestamp, StageName(stage), req.remoteAddr, req.httpMethod, req.path, code, duration);
  }

  lemma JoinRegroup(a: string, b: string, c: string, d: string, e: string, f: string, g: string)
    ensures a + " " + ("[" + b + "]" + " " + (c + " " + (d + " " + (e + " " + (f + " " + g)))))
         == a + " [" + b + "] " + c + " " + d + " " + e + " " + f + " " + g
  {
  }

  /** JsonFormat as literal texts, each followed by the verb for its argument; the format ends in JsonTail. */
  function JsonPieces(timestamp: string, stage: Stage, req: Request, statusCode: int, duration: string): seq<Fmt.Piece> {
    [Fmt.Piece("{\"timestamp\": \"", Fmt.Str(timestamp)),
     Fmt.Piece("\", \"stage\": \"", Fmt.Str(StageName(stage))),
     Fmt.Piece("\", \"client_ip\": \"", Fmt.Str(req.remoteAddr)),
     Fmt.Piece("\", \"method\": \"", Fmt.Str(req.httpMethod)),
     Fmt.Piece("\", \"path\": \"", Fmt.Str(req.path)),
     Fmt.Piece("\", \"status_code\": ", Fmt.Int(statusCode)),
     Fmt.Piece(", \"duration\": \"", Fmt.Str(duration))]
  }

  const JsonTail: string := "\"}"

  lemma JsonTemplate(timestamp: string, stage: Stage, req: Request, statusCode: int, duration: string)
    ensures Fmt.Template(JsonPieces(timestamp, stage, req, statusCode, duration), JsonTail) == JsonFormat
  {
    var ps := JsonPieces(timestamp, stage, req, statusCode, duration);
    var c0, c1, c2, c3 := "{\"timestamp\": \"%s", "\", \"stage\": \"%s", "\", \"client_ip\": \"%s", "\", \"method\": \"%s";
    var c4, c5, c6 := "\", \"path\": \"%s", "\", \"status_code\": %d", ", \"duration\": \"%s";
    assert ps[6].lit + "%s" == c6;
    assert Fmt.Template(ps[6..], JsonTail) == c6 + JsonTail;
    assert ps[5].lit + "%d" == c5;
    assert Fmt.Template(ps[5..], JsonTail) == c5 + (c6 + JsonTail);
    assert ps[4].lit + "%s" == c4;
    assert Fmt.Template(ps[4..], JsonTail) == c4 + (c5 + (c6 + JsonTail));
    assert ps[3].lit + "%s" == c3;
    assert Fmt.Template(ps[3..], JsonTail) == c3 + (c4 + (c5 + (c6 + JsonTail)));
    assert ps[2].lit + "%s" == c2;
    assert Fmt.Template(ps[2..], JsonTail) == c2 + (c3 + (c4 + (c5 + (c6 + JsonTail))));
    assert ps[1].lit + "%s" == c1;
    assert Fmt.Template(ps[1..], JsonTail) == c1 + (c2 + (c3 + (c4 + (c5 + (c6 + JsonTail)))));
    assert ps[0].lit + "%s" == c0;
    assert Fmt.Template(ps, JsonTail) == c0 + (c1 + (c2 + (c3 + (c4 + (c5 + (c6 + JsonTail))))));
    Regroup8(c0, c1, c2, c3, c4, c5, c6, JsonTail);
  }

  lemma Regroup8(a: string, b: string, c: string, d: string, e: string, f: string, g: string, h: string)
    ensures a + (b + (c + (d + (e + (f + (g + h)))))) == a + b + c + d + e + f + g + h
  {
  }

  /** The JSON line with every value in place; the six string values sit between quotes, unescaped. */
  function JsonFlat(timestamp: string, stage: Stage, req: Request, statusCode: int, duration: string): string {
    "{\"timestamp\": \"" + timestamp + "\", \"stage\": \"" + StageName(stage) + "\", \"client_ip\": \"" + req.remoteAddr
    + "\", \"method\": \"" + req.httpMethod + "\", \"path\": \"" + req.path + "\", \"status_code\": "
    + Decimal.IntToString(statusCode) + ", \"duration\": \"" + duration + "\"}"
  }

  lemma JsonFilled(timestamp: string, stage: Stage, req: Request, statusCode: int, duration: string)
    ensures Fmt.Filled(JsonPieces(timestamp, stage, req, statusCode, duration), JsonTail)
         == JsonFlat(timestamp, stage, req, statusCode, duration)
  {
    var ps := JsonPieces(timestamp, stage, req, statusCode, duration);
    var code := Decimal.IntToString(statusCode);
    var f6 := ", \"duration\": \"" + duration + JsonTail;
    assert Fmt.Filled(ps[6..], JsonTail) == f6;
    var f5 := "\", \"status_code\": " + code + f6;
    assert Fmt.Filled(ps[5..], JsonTail) == f5;
    var f4 := "\", \"path\": \"" + req.path + f5;
    assert Fmt.Filled(ps[4..], JsonTail) == f4;
    var f3 := "\", \"method\": \"" + req.httpMethod + f4;
    assert Fmt.Filled(ps[3..], JsonTail) == f3;
    var f2 := "\", \"client_ip\": \"" + req.remoteAddr + f3;
    assert Fmt.Filled(ps[2..], JsonTail) == f2;
    var f1 := "\", \"stage\": \"" + StageName(stage) + f2;
    assert Fmt.Filled(ps[1..], JsonTail) == f1;
    assert Fmt.Filled(ps, JsonTail) == "{\"timestamp\": \"" + timestamp + f1;
    JsonRegroup(timestamp, StageName(stage), req.remoteAddr, req.httpMethod, req.path, code, duration);
  }

  lemma JsonRegroup(a: string, b: string, c: string, d: string, e: string, f: string, g: string)
    ensures "{\"timestamp\": \"" + a + ("\", \"stage\": \"" + b + ("\", \"client_ip\": \"" + c
            + ("\", \"method\": \"" + d + ("\", \"path\": \"" + e + ("\", \"status_code\": " + f
            + (", \"duration\": \"" + g + "\"}"))))))
         == "{\"timestamp\": \"" + a + "\", \"stage\": \"" + b + "\", \"client_ip\": \"" + c
            + "\", \"method\": \"" + d + "\", \"path\": \"" + e + "\", \"status_code\": "
            + f + ", \"duration\": \"" + g + "\"}"
  {
  }

  /** No literal text of the JSON format holds a '%'. */
  lemma JsonLiteralsPlain(timestamp: string, stage: Stage, req: Request, statusCode: int, duration: string)
    ensures forall i :: 0 <= i < 7 ==> '%' !in JsonPieces(timestamp, stage, req, statusCode, duration)[i].lit
    ensures '%' !in JsonTail
  {
    JsonTextsPlain();
  }

  /** The literal texts of the JSON format, one by one. */
  lemma JsonTextsPlain()
    ensures '%' !in "{\"timestamp\": \""
    ensures '%' !in "\", \"stage\": \""
    ensures '%' !in "\", \"client_ip\": \""
    ensures '%' !in "\", \"method\": \""
    ensures '%' !in "\", \"path\": \""
    ensures '%' !in "\", \"status_code\": "
    ensures '%' !in ", \"duration\": \""
    ensures '%' !in "\"}"
  {
  }

  /** Sprintf fills JsonFormat with the seven arguments, each after its literal text. */
  lemma JsonSprintf(timestamp: string, stage: Stage, req: Request, statusCode: int, duration: string)
    ensures Fmt.Sprintf(JsonFormat, Args(timestamp, stage, req, statusCode, duration))
         == Some(JsonFlat(timestamp, stage, req, statusCode, duration))
  {
    var ps := JsonPieces(timestamp, stage, req, statusCode, duration);
    var args := Args(timestamp, stage, req, statusCode, duration);
    assert Fmt.PieceArgs(ps) == args;
    JsonLiteralsPlain(timestamp, stage, req, statusCode, duration);
    calc {
      Fmt.Sprintf(JsonFormat, args);
      { JsonTemplate(timestamp, stage, req, statusCode, duration); }
      Fmt.Sprintf(Fmt.Template(ps, JsonTail), Fmt.PieceArgs(ps));
      { Fmt.SprintfTemplate(ps, JsonTail); }
      Some(Fmt.Filled(ps, JsonTail));
      { JsonFilled(timestamp, stage, req, statusCode, duration); }
      Some(JsonFlat(timestamp, stage, req, statusCode, duration));
    }
  }

  /** The literal chunks of the JSON line are the key texts with their quotes, colons and separators. */
  lemma JsonChunks()
    ensures "{" + "\"" + "timestamp" + "\": " + "\"" == "{\"timestamp\": \""
    ensures "\"" + ", " + "\"" + "stage" + "\": " + "\"" == "\", \"stage\": \""
    ensures "\"" + ", " + "\"" + "client_ip" + "\": " + "\"" == "\", \"client_ip\": \""
    ensures "\"" + ", " + "\"" + "method" + "\": " + "\"" == "\", \"method\": \""
  {
  }

  lemma JsonChunksRest()
    ensures "\"" + ", " + "\"" + "path" + "\": " + "\"" == "\", \"path\": \""
    ensures "\"" + ", " + "\"" + "status_code" + "\": " + "" == "\", \"status_code\": "
    ensures "" + ", " + "\"" + "duration" + "\": " + "\"" == ", \"duration\": \""
    ensures "\"" + "}" == "\"}"
  {
  }

  /** The JSON line is the flat JSON object of the seven members, in order. */
  lemma JsonRender(timestamp: string, stage: Stage, req: Request, statusCode: int, duration: string)
    ensures Layout.RenderObject(JsonMembers(timestamp, stage, req, statusCode, duration))
         == JsonFlat(timestamp, stage, req, statusCode, duration)
  {
    var ms := JsonMembers(timestamp, stage, req, statusCode, duration);
    var ps := JsonPieces(timestamp, stage, req, statusCode, duration);
    JsonChunks();
    JsonChunksRest();
    assert Layout.ObjectPieces(ms[6..], Layout.Quote(ms[5].value) + ", ") == ps[6..];
    assert Layout.ObjectPieces(ms[5..], Layout.Quote(ms[4].value) + ", ") == ps[5..];
    assert Layout.ObjectPieces(ms[4..], Layout.Quote(ms[3].value) + ", ") == ps[4..];
    assert Layout.ObjectPieces(ms[3..], Layout.Quote(ms[2].value) + ", ") == ps[3..];
    assert Layout.ObjectPieces(ms[2..], Layout.Quote(ms[1].value) + ", ") == ps[2..];
    assert Layout.ObjectPieces(ms[1..], Layout.Quote(ms[0].value) + ", ") == ps[1..];
    assert Layout.ObjectPieces(ms, "{") == ps;
    assert Layout.ObjectTail(ms) == JsonTail;
    Layout.FilledObject(ms, "{");
    JsonFilled(timestamp, stage, req, statusCode, duration);
  }

  /** The text layout (logs.go:69). */
  function TextMessage(timestamp: string, stage: Stage, req: Request, statusCode: int, duration: string): (r: string)
  {
    TextSprintf(timestamp, stage, req, statusCode, duration);
    Fmt.Sprintf(TextFormat, Args(timestamp, stage, req, statusCode, duration)).value
  }

  /** The text message is the seven fields joined by single spaces, the stage in brackets. */
  lemma TextLayout(timestamp: string, stage: Stage, req: Request, statusCode: int, duration: string)
    ensures TextMessage(timestamp, stage, req, statusCode, duration)
         == Layout.Join(" ", TextFields(timestamp, stage, req, statusCode, duration))
  {
    TextSprintf(timestamp, stage, req, statusCode, duration);
    TextJoin(timestamp, stage, req, statusCode, duration);
  }

  /** The JSON layout (logs.go:66-67). */
  function JsonMessage(timestamp: string, stage: Stage, req: Request, statusCode: int, duration: string): (r: string)
  {
    JsonSprintf(timestamp, stage, req, statusCode, duration);
    Fmt.Sprintf(JsonFormat, Args(timestamp, stage, req, statusCode, duration)).value
  }

  /** The JSON message is one flat object with the seven members in their fixed order. */
  lemma JsonLayout(timestamp: string, stage: Stage, req: Request, statusCode: int, duration: string)
    ensures JsonMessage(timestamp, stage, req, statusCode, duration)
         == Layout.RenderObject(JsonMembers(timestamp, stage, req, statusCode, duration))
  {
    JsonSprintf(timestamp, stage, req, statusCode, duration);
    JsonRender(timestamp, stage, req, statusCode, duration);
  }

  /** The message logRequestDetails builds: JSON when the format is exactly "json", text otherwise. */
  function Message(format: string, timestamp: string, stage: Stage, req: Request, statusCode: int, duration: string): string {
    if format == JsonFormatName then
      JsonMessage(timestamp, stage, req, statusCode, duration)
    else
      TextMessage(timestamp, stage, req, statusCode, duration)
  }

  /**
   * The layout is chosen by exact comparison with "json": that value and no
   * other yields the JSON layout, and every other value, "" and "JSON"
   * included, yields the text layout. The two layouts never coincide: the
   * JSON line is 98 characters longer than the text line of the same fields.
   */
  lemma FormatSelection(format: string, timestamp: string, stage: Stage, req: Request, statusCode: int, duration: string)
    ensures Message(format, timestamp, stage, req, statusCode, duration) == JsonMessage(timestamp, stage, req, statusCode, duration)
            <==> format == "json"
    ensures Message(format, timestamp, stage, req, statusCode, duration) == TextMessage(timestamp, stage, req, statusCode, duration)
            <==> format != "json"
  {
    var json := JsonMessage(timestamp, stage, req, statusCode, duration);
    var text := TextMessage(timestamp, stage, req, statusCode, duration);
    JsonSprintf(timestamp, stage, req, statusCode, duration);
    TextSprintf(timestamp, stage, req, statusCode, duration);
    assert |json| == |text| + 98;
  }

  /** The line log.Logger.Println writes (logs.go:72): the logger's prefix, the message, a newline. */
  function Entry(prefix: string, message: string): string
  {
    prefix + message + "\n"
  }

  /**
   * When neither the prefix nor the message holds a newline, the entry is
   * exactly one line: its only newline is the one Println adds at the end.
   */
  lemma EntryIsOneLine(prefix: string, message: string)
    requires '\n' !in prefix && '\n' !in message
    ensures Layout.Split('\n', Entry(prefix, message)) == [prefix + message, ""]
  {
    assert Entry(prefix, message) == (prefix + message) + ['\n'] + "";
    Layout.SplitAround('\n', prefix + message, "");
    Layout.SplitWithout('\n', prefix + message);
  }

  /** The layouts add no newline of their own: a message holds one only if a field does. */
  lemma MessageWithoutNewline(format: string, timestamp: string, stage: Stage, req: Request, statusCode: int, duration: string)
    requires '\n' !in timestamp && '\n' !in duration
    requires '\n' !in req.remoteAddr && '\n' !in req.httpMethod && '\n' !in req.path
    ensures '\n' !in Message(format, timestamp, stage, req, statusCode, duration)
  {
    Decimal.IntToStringChars(statusCode);
    assert '\n' !in StageName(stage);
    if format == JsonFormatName {
      JsonWithoutNewline(timestamp, StageName(stage), req.remoteAddr, req.httpMethod, req.path,
                         Decimal.IntToString(statusCode), duration);
      JsonSprintf(timestamp, stage, req, statusCode, duration);
    } else {
      TextSprintf(timestamp, stage, req, statusCode, duration);
    }
  }

  lemma JsonWithoutNewline(a: string, b: string, c: string, d: string, e: string, f: string, g: string)
    requires '\n' !in a && '\n' !in b && '\n' !in c && '\n' !in d && '\n' !in e && '\n' !in f && '\n' !in g
    ensures '\n' !in "{\"timestamp\": \"" + a + "\", \"stage\": \"" + b + "\", \"client_ip\": \"" + c
                     + "\", \"method\": \"" + d + "\", \"path\": \"" + e + "\", \"status_code\": "
                     + f + ", \"duration\": \"" + g + "\"}"
  {
    assert '\n' !in "{\"timestamp\": \"";
    assert '\n' !in "\", \"stage\": \"";
    assert '\n' !in "\", \"client_ip\": \"";
    assert '\n' !in "\", \"method\": \"";
    assert '\n' !in "\", \"path\": \"";
    assert '\n' !in "\", \"status_code\": ";
    assert '\n' !in ", \"duration\": \"";
    assert '\n' !in "\"}";
  }

  /**
   * A text line can be read back from the right: split at spaces, it ends
   * with the bracketed stage, the address, the method, the path, the decimal
   * status code and the duration, provided none of the address, method, path
   * and duration holds a space (the RFC 1123 timestamp in front does hold
   * spaces; the status code never does).
   */
  lemma TextFieldsRecoverable(timestamp: string, stage: Stage, req: Request, statusCode: int, duration: string)
    requires ' ' !in req.remoteAddr && ' ' !in req.httpMethod && ' ' !in req.path && ' ' !in duration
    ensures Layout.Split(' ', TextMessage(timestamp, stage, req, statusCode, duration))
         == Layout.Split(' ', timestamp)
            + ["[" + StageName(stage) + "]", req.remoteAddr, req.httpMethod, req.path,
               Decimal.IntToString(statusCode), duration]
  {
    var fs := TextFields(timestamp, stage, req, statusCode, duration);
    Decimal.IntToStringChars(statusCode);
    assert ' ' !in fs[1];
    Layout.SplitJoin(' ', fs);
    TextLayout(timestamp, stage, req, statusCode, duration);
  }
}
