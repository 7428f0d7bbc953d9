/**
 * The request executor: given a prepared call and what the network did with it, the result
 * `makeRequest` returns. The network is an input: either the connection failed with some
 * exception, or the server answered with a status code and a body read line by line.
 */
module Executor {
  import opened Outcomes
  import opened Bodies

  const HttpOk: int := 200
  const HttpBadRequest: int := 400
  const HttpUnauthorized: int := 401
  const HttpForbidden: int := 403
  const HttpNotFound: int := 404
  const HttpConflict: int := 409
  const HttpServerError: int := 500

  /** `System.lineSeparator()` on Android. */
  const LineSeparator: string := "\n"
  /** The text of a success when no response body is read. */
  const NoBodyText: string := "200"
  const NoResponse: string := "No response from server"

  /** One entry of a call's status table: the status and the exception it stands for. */
  datatype StatusEntry = StatusEntry(code: int, kind: ErrorKind, message: string)

  /**
   * The string handed to `new URL(..)`: an `http://` address, or a string with no scheme
   * (the default text of an object followed by an id), which `new URL` refuses.
   */
  datatype Url = Http(text: string) | NoScheme(text: string)

  /** The arguments of one `makeRequest` call. `input` says whether the response body is read. */
  datatype Call = Call(
    httpMethod: string,
    url: Url,
    input: bool,
    body: Option<JsonObject>,
    headers: map<string, string>,
    table: seq<StatusEntry>)

  /** The response body as `readLine` delivers it, or the exception reading it raised. */
  datatype Body = Lines(lines: seq<string>) | ReadFailed(message: string)

  /** What the network did with the request. */
  datatype Exchange = Answered(status: int, body: Body) | Unreachable(message: string)

  /** The first entry of the table whose status is `code`. */
  function FirstMatch(table: seq<StatusEntry>, code: int): (r: Option<StatusEntry>)
    ensures r.Some? ==> r.value in table && r.value.code == code
    ensures r.None? <==> forall i :: 0 <= i < |table| ==> table[i].code != code
    decreases |table|
  {
    if table == [] then None
    else if table[0].code == code then Some(table[0])
    else FirstMatch(table[1..], code)
  }

  /** The entry at the first index with a matching status is the one found. */
  lemma {:induction false} FirstMatchAt(table: seq<StatusEntry>, code: int, i: nat)
    requires i < |table| && table[i].code == code
    requires forall j :: 0 <= j < i ==> table[j].code != code
    ensures FirstMatch(table, code) == Some(table[i])
    decreases i
  {
    if i > 0 {
      FirstMatchAt(table[1..], code, i - 1);
    }
  }

  /** The entries the lookup loop visits: indices below `size - 1`, so never the last one. */
  function Consulted(table: seq<StatusEntry>): (r: seq<StatusEntry>)
    ensures |r| <= |table|
    ensures |table| > 0 ==> |r| == |table| - 1
    ensures forall i :: 0 <= i < |r| ==> r[i] == table[i]
  {
    if |table| == 0 then [] else table[..|table| - 1]
  }

  /** The text the reader loop accumulates: every line followed by a line separator. */
  function Accumulate(lines: seq<string>): string
    decreases |lines|
  {
    if lines == [] then "" else lines[0] + LineSeparator + Accumulate(lines[1..])
  }

  lemma {:induction false} AccumulateSnoc(lines: seq<string>, line: string)
    ensures Accumulate(lines + [line]) == Accumulate(lines) + line + LineSeparator
    decreases |lines|
  {
    if lines == [] {
      assert lines + [line] == [line];
    } else {
      assert (lines + [line])[1..] == lines[1..] + [line];
      AccumulateSnoc(lines[1..], line);
    }
  }

  /** The accumulated text is empty exactly when no line was read. */
  lemma AccumulateEmpty(lines: seq<string>)
    ensures Accumulate(lines) == "" <==> lines == []
  {
    if lines != [] {
      assert |Accumulate(lines)| >= |LineSeparator|;
    }
  }

  /** The index of the first line separator in `s`, or `|s|` when there is none. */
  function FirstNewline(s: string): (k: nat)
    ensures k <= |s|
    ensures forall i :: 0 <= i < k ==> s[i] != '\n'
    ensures k < |s| ==> s[k] == '\n'
    decreases |s|
  {
    if s == [] then 0 else if s[0] == '\n' then 0 else 1 + FirstNewline(s[1..])
  }

  /** Splitting text at line separators, as `readLine` would read it back. */
  function SplitLines(s: string): seq<string>
    decreases |s|
  {
    if s == [] then []
    else
      var k := FirstNewline(s);
      if k == |s| then [s] else [s[..k]] + SplitLines(s[k + 1..])
  }

  /** Reading the accumulated text back line by line gives the lines that were read. */
  lemma {:induction false} AccumulateSplitLines(lines: seq<string>)
    requires forall i :: 0 <= i < |lines| ==> '\n' !in lines[i]
    ensures SplitLines(Accumulate(lines)) == lines
    decreases |lines|
  {
    if lines != [] {
      var s := Accumulate(lines);
      var rest := Accumulate(lines[1..]);
      assert s == lines[0] + "\n" + rest;
      forall i | 0 <= i < |lines[0]|
        ensures s[i] != '\n'
      {
        assert s[i] == lines[0][i];
      }
      assert s[|lines[0]|] == '\n';
      var k := FirstNewline(s);
      assert k == |lines[0]|;
      assert s[..k] == lines[0];
      assert s[k + 1..] == rest;
      AccumulateSplitLines(lines[1..]);
    }
  }

  /** A non-empty response text is a success carrying it; an empty one is an IOException. */
  function Classify(text: string): (r: Result)
    ensures r.Success? <==> text != ""
    ensures r.Success? ==> r.text == text
    ensures r.Failure? ==> r == Failure(IO, NoResponse)
  {
    if text != "" then Success(text) else Failure(IO, NoResponse)
  }

  /** `makeRequest` with the status lookup restricted to the entries in `consulted`. */
  function Respond(c: Call, net: Exchange, consulted: seq<StatusEntry>): Result {
    if c.url.NoScheme? then Failure(MalformedUrl, "no protocol: " + c.url.text)
    else
      match net
      case Unreachable(m) => Failure(ConnectionFailure, m)
      case Answered(status, body) =>
        var hit := if status == HttpOk then None else FirstMatch(consulted, status);
        if hit.Some? then Failure(hit.value.kind, hit.value.message)
        else if !c.input then Classify(NoBodyText)
        else
          match body
          case ReadFailed(m) => Failure(ConnectionFailure, m)
          case Lines(lines) => Classify(Accumulate(lines))
  }

  /** `makeRequest` as written: the lookup never visits the table's last entry. */
  function Execute(c: Call, net: Exchange): Result {
    Respond(c, net, Consulted(c.table))
  }

  /** `makeRequest` as evidently intended: the lookup visits the whole table. */
  function ExecuteIntended(c: Call, net: Exchange): Result {
    Respond(c, net, c.table)
  }

  /** The status lookup loop of `makeRequest`, bounded by `size - 1` as written. */
  method LookupStatus(table: seq<StatusEntry>, code: int) returns (hit: Option<StatusEntry>)
    ensures hit == FirstMatch(Consulted(table), code)
  {
    var size := |table|;
    var i := 0;
    while i < size - 1
      invariant 0 <= i <= size
      invariant forall j :: 0 <= j < i ==> table[j].code != code
    {
      if table[i].code == code {
        FirstMatchAt(Consulted(table), code, i);
        return Some(table[i]);
      }
      i := i + 1;
    }
    return None;
  }

  /** The reader loop of `makeRequest`: append each line and a line separator. */
  method ReadResponse(lines: seq<string>) returns (text: string)
    ensures text == Accumulate(lines)
  {
    text := "";
    var i := 0;
    while i < |lines|
      invariant 0 <= i <= |lines|
      invariant text == Accumulate(lines[..i])
    {
      AccumulateSnoc(lines[..i], lines[i]);
      assert lines[..i + 1] == lines[..i] + [lines[i]];
      text := text + lines[i] + LineSeparator;
      i := i + 1;
    }
    assert lines[..i] == lines;
  }

  /** `makeRequest`: open the URL, look the status up, read the body, classify the text. */
  method MakeRequest(c: Call, net: Exchange) returns (r: Result)
    ensures r == Execute(c, net)
  {
    if c.url.NoScheme? {
      return Failure(MalformedUrl, "no protocol: " + c.url.text);
    }
    match net {
      case Unreachable(m) =>
        return Failure(ConnectionFailure, m);
      case Answered(status, body) =>
        if status != HttpOk {
          var hit := LookupStatus(c.table, status);
          if hit.Some? {
            return Failure(hit.value.kind, hit.value.message);
          }
        }
        var response: string;
        if c.input {
          match body {
            case ReadFailed(m) =>
              return Failure(ConnectionFailure, m);
            case Lines(lines) =>
              response := ReadResponse(lines);
          }
        } else {
          response := NoBodyText;
        }
        if response != "" {
          r := Success(response);
        } else {
          r := Failure(IO, NoResponse);
        }
    }
  }

  /** A status found before the last entry yields that entry's exception, whatever the body. */
  lemma MappedStatus(c: Call, status: int, body: Body, i: nat)
    requires c.url.Http? && status != HttpOk
    requires i < |c.table| - 1 && c.table[i].code == status
    requires forall j :: 0 <= j < i ==> c.table[j].code != status
    ensures Execute(c, Answered(status, body)) == Failure(c.table[i].kind, c.table[i].message)
  {
    FirstMatchAt(Consulted(c.table), status, i);
  }

  /** A status that the lookup does not find is handled exactly like 200. */
  lemma UnmappedStatusActsAsOk(c: Call, status: int, body: Body)
    requires forall i :: 0 <= i < |c.table| - 1 ==> c.table[i].code != status
    ensures Execute(c, Answered(status, body)) == Execute(c, Answered(HttpOk, body))
  {
    assert FirstMatch(Consulted(c.table), status).None?;
  }

  /** The last entry is never returned: its status, unless listed earlier, acts like 200. */
  lemma LastEntryNeverMapped(c: Call, body: Body)
    requires |c.table| > 0
    requires forall i :: 0 <= i < |c.table| - 1 ==> c.table[i].code != c.table[|c.table| - 1].code
    ensures Execute(c, Answered(c.table[|c.table| - 1].code, body)) == Execute(c, Answered(HttpOk, body))
  {
    UnmappedStatusActsAsOk(c, c.table[|c.table| - 1].code, body);
  }

  /** A single-entry table maps nothing: every status acts like 200. */
  lemma SingleEntryTableMapsNothing(c: Call, status: int, body: Body)
    requires |c.table| == 1
    ensures Execute(c, Answered(status, body)) == Execute(c, Answered(HttpOk, body))
  {
    UnmappedStatusActsAsOk(c, status, body);
  }

  /**
   * With status 200 and a body read, the result is a success carrying the accumulated lines
   * exactly when at least one line came back, and "No response from server" otherwise.
   */
  lemma OkResponse(c: Call, lines: seq<string>)
    requires c.url.Http? && c.input
    ensures Execute(c, Answered(HttpOk, Lines(lines))).Success? <==> lines != []
    ensures lines != [] ==> Execute(c, Answered(HttpOk, Lines(lines))) == Success(Accumulate(lines))
    ensures lines == [] ==> Execute(c, Answered(HttpOk, Lines(lines))) == Failure(IO, NoResponse)
  {
    AccumulateEmpty(lines);
  }

  /** When no body is read, a 200 answer is the success "200". */
  lemma OkWithoutBody(c: Call, body: Body)
    requires c.url.Http? && !c.input
    ensures Execute(c, Answered(HttpOk, body)) == Success(NoBodyText)
  {
  }

  /** A URL without a scheme fails before any request is made, whatever the network does. */
  lemma NoSchemeFails(c: Call, net: Exchange)
    requires c.url.NoScheme?
    ensures Execute(c, net).Failure? && Execute(c, net).kind == MalformedUrl
  {
  }

  /** The intended lookup maps every listed status, the last entry's included. */
  lemma IntendedMapsEveryEntry(c: Call, status: int, body: Body, i: nat)
    requires c.url.Http? && status != HttpOk
    requires i < |c.table| && c.table[i].code == status
    requires forall j :: 0 <= j < i ==> c.table[j].code != status
    ensures ExecuteIntended(c, Answered(status, body)) == Failure(c.table[i].kind, c.table[i].message)
  {
    FirstMatchAt(c.table, status, i);
  }
}
