/**
  The request handler `on_message` for `POST /message/{topic}`: it splits the
  alert text into a title and a body, frames them in a console banner,
  forwards them, classifies the gateway's status for the log and hands that
  status back to the caller unchanged.
 */
module Handler {
  import opened Wrappers
  import PyStr
  import Settings
  import Forwarding

  /** The alert text once split: a title line and the rest. */
  datatype Alert = Alert(title: string, body: string)

  /** `text.strip().partition("\n")`, each part stripped again. */
  function SplitAlert(text: string): (a: Alert)
    ensures '\n' !in a.title
    ensures PyStr.Trimmed(a.title) && PyStr.Trimmed(a.body)
  {
    var parts := PyStr.Partition(PyStr.Strip(text), '\n');
    PyStr.StripKeepsOut(parts.head, '\n');
    Alert(PyStr.Strip(parts.head), PyStr.Strip(parts.tail))
  }

  /** A one-line alert is all title. */
  lemma SplitSingleLine(text: string)
    requires '\n' !in PyStr.Strip(text)
    ensures SplitAlert(text) == Alert(PyStr.Strip(text), "")
  {
    PyStr.StripIdempotent(text);
    assert PyStr.Strip("") == "" by { PyStr.StripEmptyIff(""); }
  }

  /** A multi-line alert splits at its first newline; the later newlines stay
      in the body. */
  lemma SplitMultiLine(text: string, first: string, rest: string)
    requires PyStr.Strip(text) == first + "\n" + rest
    requires '\n' !in first
    ensures SplitAlert(text) == Alert(PyStr.Strip(first), PyStr.Strip(rest))
  {
    PyStr.PartitionAtFirst(first, '\n', rest);
  }

  /** The title is empty exactly when the whole text is whitespace, and then
      the body is empty too. */
  lemma TitleEmptyIff(text: string)
    ensures SplitAlert(text).title == "" <==> PyStr.AllSpace(text)
    ensures SplitAlert(text).title == "" ==> SplitAlert(text).body == ""
  {
    var s := PyStr.Strip(text);
    var parts := PyStr.Partition(s, '\n');
    PyStr.StripEmptyIff(text);
    PyStr.StripEmptyIff(parts.head);
    PyStr.StripEmptyIff(parts.tail);
    if s != [] {
      assert !PyStr.IsSpace(s[0]);
      assert parts.head != [];
      assert parts.head[0] == s[0];
    } else {
      assert parts == PyStr.Parts([], [], []);
    }
  }

  /** Stands in for an empty title in the console banner. */
  const NoTitle := "(no title)"

  /** The title as logged: never empty, the placeholder standing in for an
      empty title. */
  function LogTitle(title: string): (t: string)
    ensures t != []
    ensures title != [] ==> t == title
    ensures title == [] ==> t == NoTitle
  {
    if title != [] then title else NoTitle
  }

  /** `"<title> (topic: <topic>)"`. */
  function LogHeader(title: string, topic: string): string {
    LogTitle(title) + " (topic: " + topic + ")"
  }

  /** The three console lines printed for an inbound alert: the opening line
      carrying the header, the body, and a closing line of `=`. */
  function Banner(title: string, topic: string, body: string): (lines: seq<string>)
    ensures |lines| == 3 && lines[1] == body
    ensures lines[0] == "========== " + LogTitle(title) + " (topic: " + topic + ") =========="
    ensures |lines[2]| == |lines[0]|
    ensures forall i :: 0 <= i < |lines[2]| ==> lines[2][i] == '='
  {
    var header := LogHeader(title, topic);
    ["========== " + header + " ==========", body, PyStr.Repeat('=', |header| + 22)]
  }

  /** How a gateway status is reported on the console. */
  datatype Outcome = Forwarded | Unauthorized | UnknownError(code: int)

  const AuthFailureStatuses: set<int> := {400, 401, 403}

  /** 200 is success; 400, 401 and 403 are a token problem; anything else is
      an unknown error that carries its code. */
  function Classify(status: int): (o: Outcome)
    ensures o.Forwarded? <==> status == 200
    ensures o.Unauthorized? <==> status in AuthFailureStatuses
    ensures o.UnknownError? <==> status != 200 && status !in AuthFailureStatuses
    ensures o.UnknownError? ==> o.code == status
  {
    if status == 200 then Forwarded
    else if status in AuthFailureStatuses then Unauthorized
    else UnknownError(status)
  }

  /** Python's f-string rendering of an optional string: `None` prints as
      the word `None`. */
  function FormatOptional(o: Option<string>): string {
    if o.Some? then o.value else "None"
  }

  const ForwardedLine := ">> Forwarded successfully\n"
  const UnauthorizedPrefix := ">> Unauthorized! Token NTFY_TOKEN='"
  const UnauthorizedSuffix := "' is incorrect\n"
  const UnknownErrorPrefix := ">> Unknown error while forwarding to Ntfy. " + "Error Code "

  /** A line assembled from a `>> ` lead, any middle and a newline-ended tail
      keeps the lead's opening characters and the tail's newline. */
  lemma FramedLine(lead: string, middle: string, tail: string)
    requires |lead| > 6 && lead[..3] == ">> "
    requires tail != [] && tail[|tail| - 1] == '\n'
    ensures var line := lead + middle + tail;
            && |line| > 6 && line[..3] == ">> " && line[|line| - 1] == '\n'
            && line[3] == lead[3] && line[5] == lead[5]
  {
    var line := lead + middle + tail;
    assert line[..3] == lead[..3];
    assert line[|line| - 1] == tail[|tail| - 1];
  }

  lemma UnknownErrorPrefixOpens()
    ensures |UnknownErrorPrefix| > 6 && UnknownErrorPrefix[..3] == ">> "
    ensures UnknownErrorPrefix[3] == 'U' && UnknownErrorPrefix[5] == 'k'
  {
    var lead := ">> Unknown error while forwarding to Ntfy. ";
    assert lead[0] == '>' && lead[1] == '>' && lead[2] == ' ';
    assert lead[..3] == ">> ";
    assert UnknownErrorPrefix[..3] == lead[..3];
    assert UnknownErrorPrefix[3] == lead[3] && UnknownErrorPrefix[5] == lead[5];
  }

  /** The outcome line printed after forwarding. Each starts with `>> ` and
      ends in a newline (so `print` leaves a blank line), and the three kinds
      are told apart by their opening words. */
  function OutcomeLine(o: Outcome, token: Option<string>): (line: string)
    ensures |line| > 6 && line[..3] == ">> " && line[|line| - 1] == '\n'
    ensures line[3] == 'F' <==> o.Forwarded?
    ensures line[5] == 'a' <==> o.Unauthorized?
  {
    match o
    case Forwarded => ForwardedLine
    case Unauthorized =>
      FramedLine(UnauthorizedPrefix, FormatOptional(token), UnauthorizedSuffix);
      UnauthorizedPrefix + FormatOptional(token) + UnauthorizedSuffix
    case UnknownError(code) =>
      UnknownErrorPrefixOpens();
      FramedLine(UnknownErrorPrefix, PyStr.IntText(code), "\n");
      UnknownErrorPrefix + PyStr.IntText(code) + "\n"
  }

  /** The token-problem line names the configured token between its quotes,
      and an unset token is named `None`. */
  lemma UnauthorizedLineNamesToken(token: Option<string>)
    ensures var line := OutcomeLine(Unauthorized, token);
            && |line| == |UnauthorizedPrefix| + |FormatOptional(token)| + |UnauthorizedSuffix|
            && line[..|UnauthorizedPrefix|] == UnauthorizedPrefix
            && line[|line| - |UnauthorizedSuffix|..] == UnauthorizedSuffix
            && (token.Some? ==> line[|UnauthorizedPrefix|..|line| - |UnauthorizedSuffix|] == token.value)
            && (token.None? ==> line[|UnauthorizedPrefix|..|line| - |UnauthorizedSuffix|] == "None")
  {
    var line := OutcomeLine(Unauthorized, token);
    var named := FormatOptional(token);
    assert line == UnauthorizedPrefix + named + UnauthorizedSuffix;
    assert line[..|UnauthorizedPrefix|] == UnauthorizedPrefix;
    assert line[|line| - |UnauthorizedSuffix|..] == UnauthorizedSuffix;
    assert line[|UnauthorizedPrefix|..|line| - |UnauthorizedSuffix|] == named;
  }

  /** The numeric code of an unknown error can be read back from its line. */
  lemma UnknownErrorLineCarriesCode(code: int, token: Option<string>)
    ensures var line := OutcomeLine(UnknownError(code), token);
            var digits := line[|UnknownErrorPrefix|..|line| - 1];
            && line[..|UnknownErrorPrefix|] == UnknownErrorPrefix
            && digits == PyStr.IntText(code)
            && PyStr.IntValue(digits) == code
  {
    PyStr.IntTextRoundTrip(code);
    var line := OutcomeLine(UnknownError(code), token);
    assert line[|UnknownErrorPrefix|..|line| - 1] == PyStr.IntText(code);
  }

  /** Why an inbound request is not handled: the JSON body has no `text`
      string. The source raises here and sends nothing downstream. */
  datatype Fault = MissingText

  /** One handled request: the POST sent downstream, the console lines, and
      the status returned to the caller. */
  datatype Exchange = Exchange(request: Forwarding.Request, console: seq<string>, status: int)

  /** `on_message`: from the topic, the alert text (if the body has one) and the
      status the gateway answers with, to what is sent, logged and returned. */
  function OnMessage(config: Settings.Config, topic: string, text: Option<string>, downstream: int)
    : (r: Result<Exchange, Fault>)
    ensures r.Failure? <==> text.None?
    ensures r.Success? ==>
              var a := SplitAlert(text.value);
              var ex := r.value;
              && ex.status == downstream
              && ex.request.data == a.body
              && ex.request.url == Forwarding.TargetUrl(config.baseUrl, topic)
              && ex.request.verifySsl == config.verifyCert
              && Forwarding.PriorityHeader !in ex.request.headers
              && (Forwarding.TitleHeader in ex.request.headers <==> a.title != "")
              && (Forwarding.TitleHeader in ex.request.headers ==> ex.request.headers[Forwarding.TitleHeader] == a.title)
              && ex.request.headers == Forwarding.Headers(config.token, Some(a.title), None)
              && (Forwarding.AuthorizationHeader in ex.request.headers <==> Forwarding.Truthy(config.token))
              && (Forwarding.AuthorizationHeader in ex.request.headers ==>
                    ex.request.headers[Forwarding.AuthorizationHeader] == config.token.value)
              && |ex.console| == 4
              && ex.console[..3] == Banner(a.title, topic, a.body)
              && ex.console[1] == a.body
              && ex.console[3] == OutcomeLine(Classify(downstream), config.token)
  {
    match text
    case None => Failure(MissingText)
    case Some(t) =>
      var a := SplitAlert(t);
      var request := Forwarding.SendRequest(config, a.body, config.token, topic, Some(a.title), None);
      assert request.headers == Forwarding.Headers(config.token, Some(a.title), None);
      var console := Banner(a.title, topic, a.body) + [OutcomeLine(Classify(downstream), config.token)];
      Success(Exchange(request, console, downstream))
  }

  /** Splitting gives back a non-empty title line and a body joined by a
      newline, provided neither has surrounding whitespace and the title has
      no newline of its own. */
  lemma SplitJoinRoundTrip(title: string, body: string)
    requires title != [] && '\n' !in title
    requires PyStr.Trimmed(title) && PyStr.Trimmed(body)
    ensures SplitAlert(title + "\n" + body) == Alert(title, body)
  {
    var text := title + "\n" + body;
    PyStr.StripTrimmed(title);
    if body == [] {
      assert text == title + "\n";
      SplitTitleOnly(title);
    } else {
      assert text[0] == title[0] && text[|text| - 1] == body[|body| - 1];
      PyStr.StripTrimmed(text);
      PyStr.StripTrimmed(body);
      SplitMultiLine(text, title, body);
    }
  }

  lemma SplitTitleOnly(title: string)
    requires title != [] && '\n' !in title && PyStr.Trimmed(title)
    ensures SplitAlert(title + "\n") == Alert(title, "")
  {
    var text := title + "\n";
    assert text == [] + title + "\n";
    assert PyStr.AllSpace("\n");
    PyStr.StripUnique([], title, "\n");
    SplitSingleLine(text);
  }

  /** An alert written as a title line and a body, each without surrounding
      whitespace, reaches the gateway as exactly that `Title` header and that
      body, and the caller gets the gateway's status back. */
  lemma OnMessageForwardsTitleAndBody(config: Settings.Config, topic: string, title: string, body: string, downstream: int)
    requires title != [] && '\n' !in title
    requires PyStr.Trimmed(title) && PyStr.Trimmed(body)
    ensures var r := OnMessage(config, topic, Some(title + "\n" + body), downstream);
            && r.Success? && r.value.status == downstream
            && Forwarding.TitleHeader in r.value.request.headers
            && r.value.request.headers[Forwarding.TitleHeader] == title
            && r.value.request.data == body
            && r.value.console[3] == OutcomeLine(Classify(downstream), config.token)
  {
    SplitJoinRoundTrip(title, body);
  }

  /** The alert `"Disk failure\nPool tank degraded"` answered with 200: the
      first line travels as the `Title` header, the second as the body, and
      success is logged. */
  lemma ScenarioTitleAndBody(config: Settings.Config, title: string, body: string)
    requires title == "Disk failure" && body == "Pool tank degraded"
    ensures var r := OnMessage(config, "alerts", Some(title + "\n" + body), 200);
            && r.Success? && r.value.status == 200
            && Forwarding.TitleHeader in r.value.request.headers
            && r.value.request.headers[Forwarding.TitleHeader] == title
            && r.value.request.data == body
            && r.value.console[3] == ForwardedLine
  {
    assert title != [] && '\n' !in title && PyStr.Trimmed(title) && PyStr.Trimmed(body) by {
      assert title[0] == 'D' && title[|title| - 1] == 'e';
      assert body[0] == 'P' && body[|body| - 1] == 'd';
    }
    OnMessageForwardsTitleAndBody(config, "alerts", title, body, 200);
  }

  /** The one-line alert `"Just one line"` answered with 401: all title, an
      empty body, the 401 handed back and logged as a token problem. */
  lemma ScenarioSingleLine(config: Settings.Config, text: string)
    requires text == "Just one line"
    ensures var r := OnMessage(config, "alerts", Some(text), 401);
            && r.Success? && r.value.status == 401
            && Forwarding.TitleHeader in r.value.request.headers
            && r.value.request.headers[Forwarding.TitleHeader] == text
            && r.value.request.data == ""
            && r.value.console[3] == OutcomeLine(Unauthorized, config.token)
  {
    assert text != [] && '\n' !in text && PyStr.Trimmed(text) by {
      assert text[0] == 'J' && text[|text| - 1] == 'e';
    }
    PyStr.StripTrimmed(text);
    SplitSingleLine(text);
  }
}
