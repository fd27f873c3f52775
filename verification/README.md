# Access-log middleware, modelled in Dafny

This project models `logs.go`, a Go HTTP middleware that writes an access log.

For every request, `LogRequest` does three things in order:

1. It wraps the response writer in a `statusCodeResponseWriter` and logs a START line.
2. It runs the wrapped handler.
3. It logs an END line holding the status code the recorder captured.

`logRequestDetails` builds each message in one of two layouts:

- **JSON**, when the logger's format is exactly `"json"`: a flat object with seven members.
- **Text**, for every other format: seven space-separated fields.

`log.Logger.Println` then appends each message to the log file as one line.

## Modules

- `Decimal`: how Go's `%d` renders an integer, with an inverse parser. Together they show the rendering loses nothing.
- `Fmt`: the part of `fmt.Sprintf` the log uses: `%s`, `%d` and literal text; `%%` is also handled.
  - It is a function on the format string and the argument list.
  - A lemma shows that a format made of literal texts and verbs fills in each argument after its literal.
- `Layout`: reference renderings the two layouts are proved against.
  - Fields joined by a separator, with `Split` as its reader.
  - A flat JSON object of string and number members.
- `LogLine`: the message of `logRequestDetails`, in both layouts, and the line `Println` writes. Both format strings are kept as the source writes them. Lemmas prove that Sprintf applied to them gives the reference renderings.
- `Http`: the calls a handler makes on its `http.ResponseWriter`, and the real writer they reach.
  - A `Timeline` ghost object records every observable effect in order: each log line and each call forwarded to the wrapped writer `w`.
  - This is what lets the START/handler/END ordering be stated.
- `Recorder`: `statusCodeResponseWriter`, as a class with a mutable `statusCode` field. `Captured`, a fold over the handler's calls, is the function its methods are proved against.
- `AccessLog`: the `Logger` class, whose log file is the sequence `entries`, plus `logRequestDetails` and the `LogRequest` handler.
  - The wrapped handler is given as the sequence of calls it makes.
  - The clock and the logger's date prefix are given as opaque strings in a `Stamp` for each line.

## Model

| member | source | states |
|---|---|---|
| Decimal.NatToString | logs.go:69 | The digits of a natural number: non-empty, all digits, and a leading zero only for 0 itself |
| Decimal.IntToString | logs.go:69 | `%d` of a Go int has a minus sign exactly when the value is negative, then digits with no redundant leading zero |
| Decimal.ParseIntToString | logs.go:69 | Parsing the `%d` rendering of any integer gives back that integer |
| Decimal.IntToStringInjective | logs.go:69 | Distinct status codes never render to the same text |
| Decimal.IntToStringChars | logs.go:69 | The rendered status code holds only digits and '-', so it holds no space and no newline |
| Fmt.Sprintf | logs.go:66-69 | Computes Go's fmt.Sprintf for literal text, `%s` of a string, `%d` of an int and `%%`; it yields `None` where Go would write `%!` error text (a bad verb, a mismatched, missing or extra argument) |
| Fmt.SprintfTemplate | logs.go:66-69 | Sprintf of a format made of '%'-free literals, each followed by a verb matching the next argument, writes each literal followed by that argument's text |
| LogLine.TextMessage | logs.go:69 | Computes the text message: Sprintf of the text format `%s [%s] %s %s %s %d %s` applied to timestamp, stage, address, method, path, code and duration; TextSprintf and TextLayout state its value |
| LogLine.TextSprintf | logs.go:69 | The text format filled with timestamp, stage, address, method, path, code and duration gives `ts [STAGE] addr method path code dur` |
| LogLine.TextLayout | logs.go:69 | The text message is the seven fields joined by single spaces, the stage in brackets and the code in decimal |
| LogLine.TextFieldsRecoverable | logs.go:69 | Split at spaces, a text line ends with the bracketed stage, address, method, path, decimal code and duration, whenever the address, method, path and duration contain no space |
| LogLine.JsonMessage | logs.go:66-67 | Computes the JSON message: Sprintf of the JSON format string applied to the same seven arguments; JsonSprintf and JsonLayout state its value |
| LogLine.JsonSprintf | logs.go:66-67 | The JSON format filled with the seven arguments gives each value after its key; the six strings are quoted and the code is an unquoted decimal |
| LogLine.JsonRender | logs.go:66-67 | The JSON line is exactly the flat JSON object of the members timestamp, stage, client_ip, method, path, status_code and duration, in that order |
| LogLine.JsonLayout | logs.go:66-67 | The JSON message is the rendering of those seven members. status_code is a number; the rest are strings written without escaping |
| LogLine.Message | logs.go:64-70 | Computes the message logRequestDetails logs: the JSON message when the format equals "json", the text message otherwise; FormatSelection states the choice both ways |
| LogLine.FormatSelection | logs.go:65-70 | The message is the JSON layout if and only if the format is exactly "json", and the text layout if and only if it is anything else; the two layouts never coincide |
| LogLine.Entry | logs.go:72 | Computes the entry Println writes: the prefix, the message and one '\n'; EntryIsOneLine states it is one line |
| LogLine.EntryIsOneLine | logs.go:72 | Println's entry, the prefix and message followed by "\n", splits at newlines into exactly one line plus the empty remainder, when prefix and message hold no newline |
| LogLine.MessageWithoutNewline | logs.go:64-70 | Neither layout adds a newline: the message holds none when no field does |
| Recorder.Captured | logs.go:82-84 | The code the recorder holds after a sequence of calls, starting from `init`: always `init` or the argument of one of the WriteHeader calls |
| Recorder.CapturedWithoutWriteHeader | logs.go:82-84 | With no WriteHeader call, the captured code stays at its initial value; Write calls never change it |
| Recorder.CapturedLastWriteHeader | logs.go:82-84 | Last write wins: the code of the last WriteHeader call is the one captured |
| Recorder.CapturedIsLastWriteHeader | logs.go:82-84 | Both cases together, for any sequence of calls |
| Recorder.StatusCodeResponseWriter.constructor | logs.go:45 | A fresh recorder wraps the given writer and holds Go's zero value 0 as its code |
| Recorder.StatusCodeResponseWriter.WriteHeader | logs.go:82-85 | Records the code, then forwards exactly one WriteHeader with that same code to the real writer |
| Recorder.StatusCodeResponseWriter.Write | logs.go:76-77 | The promoted Write goes straight to the real writer and leaves the captured code unchanged |
| AccessLog.Line | logs.go:60-73 | Computes the entry one logRequestDetails call appends: the prefix, the selected layout's message for the given code and stage, and a newline |
| AccessLog.RequestLines | logs.go:48-55 | Computes the two entries of one request: START with code 0 (logs.go:48) and END with the code captured from the handler's calls (logs.go:55) |
| AccessLog.ServeHandler | logs.go:51 | Running the handler through the recorder forwards its calls unchanged and in order, and leaves the recorder holding `Captured(handler, old code)` |
| AccessLog.Logger.constructor | logs.go:25-31 | A logger keeps the chosen format, and its log starts with the entries the file already holds |
| AccessLog.Logger.LogRequestDetails | logs.go:60-73 | Appends exactly one entry, the prefixed message of the selected layout plus a newline; no earlier entry changes |
| AccessLog.Logger.LogRequest | logs.go:40-57 | Appends exactly the START line, whose code 0 comes from the fresh recorder, and the END line (captured code). The wrapped writer `w` receives exactly the handler's calls, and the effects are START, then the calls, then END |
| AccessLog.RequestOrder | logs.go:41-56 | Each request adds exactly two log lines. START comes before every forwarded call and END after all of them, and every call reaches the wrapped writer `w` unchanged |
| AccessLog.EndReportsLastWriteHeader | logs.go:45-55 | END reports the code of the handler's last WriteHeader, or 0 when it never called WriteHeader |
| AccessLog.NotFoundThenBody | logs.go:51-55 | A handler that sets 404 and then writes a body is logged with END code 404 |

## Left out

- `NewLogger` and `Close` (logs.go:19-37) open and close a file. The `Logger` constructor starts from the entries the file already holds, because the file is opened in append mode. Failing to open the file is not modelled.
- Time is not modelled:
  - `time.Now`, `time.Since` and `time.Duration`'s rendering are left out.
  - The RFC 1123 timestamp and the duration text are opaque strings.
  - So is the date and time prefix that `log.LstdFlags` puts before each message.
- The logger's mutex and concurrent requests are left out. The model serves one request at a time, so it says nothing about interleaving across goroutines.
- `Println`'s write errors are ignored, as the source ignores them.
- The rest of `net/http` is left out:
  - header maps, the request body, and `Write`'s return values;
  - the real writer's implicit 200 on a first `Write`;
  - its panic for a code outside 100..999.
  
  The delegate records the calls it receives and nothing more.
- net/http ignores a WriteHeader after the first one or after a Write, but the recorder still captures it. So END can report a code the client never received. With `[WriteHeader(404), WriteHeader(500)]` the client gets 404 and END logs 500; with `[Write(b), WriteHeader(404)]` the client gets 200 and END logs 404.
- The handler is the sequence of calls it makes on its writer. Handlers that read the request, block or panic are not modelled. The same goes for `LogRequest` wrapping a handler that is already wrapped.
- Fmt.Sprintf: a verb that does not match its argument yields `None`. Go would write its `%!` error text instead. The log's two formats never take that path.
- Decimal.IntToString: Go's `int` is 32 or 64 bits wide depending on the platform. The model uses unbounded integers, which agree with Go for every value a Go `int` can hold.
- JSON escaping:
  - The source writes string values between quotes without escaping them, and the model does the same.
  - A JSON line is valid JSON only when no string value holds `"`, `\` or a control character.
- Text escaping: the text layout does not escape its fields either.
  - `r.URL.Path` arrives percent-decoded, so a request for a path holding `%0A` puts a newline into the message.
  - The one `Println` entry then reads as two lines in the file.
  - The model keeps this behaviour. `LogLine.EntryIsOneLine` and `LogLine.MessageWithoutNewline` state the one-line guarantee only for fields without a newline.
- The format string writes seven members, and the recorder starts at Go's zero value 0, not at the 200 that net/http sends implicitly when a handler writes a body without calling WriteHeader.
