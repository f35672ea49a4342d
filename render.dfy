/**
 * Rendering a stored event as one human-readable sentence
 * (`format_event_for_ui`), and the timestamp formatter it calls
 * (`format_utc`). Stored events are documents: maps from field names to
 * values, any of which may be absent.
 */
module Render {
  import opened Wrappers
  import opened PyText
  import opened PyJson
  import opened Receiver

  /** A date and time of day, to the minute, within the bounds of Python's `datetime`. */
  datatype DateTime = DateTime(year: int, month: int, day: int, hour: int, minute: int)

  predicate ValidDateTime(t: DateTime) {
    && 1 <= t.year <= 9999
    && 1 <= t.month <= 12
    && 1 <= t.day <= 31
    && 0 <= t.hour < 24
    && 0 <= t.minute < 60
  }

  type UtcTime = t: DateTime | ValidDateTime(t) witness DateTime(1970, 1, 1, 0, 0)

  /**
   * dateutil's `parse` followed by `astimezone(pytz.utc)`: the instant in UTC,
   * or None when either raises. For a time without a zone the result depends
   * on the host's local zone, so the conversion is a parameter.
   */
  type ToUtc = string -> Option<UtcTime>

  predicate StartsWith(s: string, prefix: string) {
    |prefix| <= |s| && s[..|prefix|] == prefix
  }

  predicate EndsWith(s: string, suffix: string) {
    |suffix| <= |s| && s[|s| - |suffix|..] == suffix
  }

  /** `%B` in the C locale: the capitalised English name of the month. */
  function MonthName(m: int): (r: string)
    requires 1 <= m <= 12
    ensures |r| >= 3 && 'A' <= r[0] <= 'Z'
  {
    ["January", "February", "March", "April", "May", "June", "July",
     "August", "September", "October", "November", "December"][m - 1]
  }

  /** `%-I`: the hour on a 12-hour clock; with `%p` it gives back the hour of the day. */
  function Hour12(h: int): (r: int)
    requires 0 <= h < 24
    ensures 1 <= r <= 12
    ensures h == r % 12 + (if h < 12 then 0 else 12)
  {
    if h % 12 == 0 then 12 else h % 12
  }

  /** `%M`: the minute as two digits. */
  function Pad2(n: int): (r: string)
    requires 0 <= n < 100
    ensures |r| == 2 && AllDigits(r) && DigitsValue(r) == n
  {
    var r := [DigitChar(n / 10), DigitChar(n % 10)];
    assert r[..1][..0] == [];
    assert DigitsValue(r[..1]) == n / 10;
    r
  }

  /** `strftime('%-d %B %Y - %-I:%M %p UTC')` in the C locale. */
  function Strftime(t: UtcTime): (r: string)
    ensures |r| > 4 && IsDigit(r[0]) && EndsWith(r, " UTC")
  {
    NatText(t.day) + " " + MonthName(t.month) + " " + NatText(t.year) + " - "
    + NatText(Hour12(t.hour)) + ":" + Pad2(t.minute) + " " + (if t.hour < 12 then "AM" else "PM") + " UTC"
  }

  /**
   * The layout of a formatted instant: it opens with the day, the month's name
   * and the year, and closes with the two-digit minute, AM or PM and " UTC";
   * between them stands the hour on a 12-hour clock.
   */
  lemma StrftimeLayout(t: UtcTime)
    ensures var date := NatText(t.day) + " " + MonthName(t.month) + " " + NatText(t.year) + " - ";
      var time := ":" + Pad2(t.minute) + " " + (if t.hour < 12 then "AM" else "PM") + " UTC";
      var r := Strftime(t);
      && StartsWith(r, date)
      && EndsWith(r, time)
      && r[|date|..|r| - |time|] == NatText(Hour12(t.hour))
  {
    var date := NatText(t.day) + " " + MonthName(t.month) + " " + NatText(t.year) + " - ";
    var hour := NatText(Hour12(t.hour));
    var time := ":" + Pad2(t.minute) + " " + (if t.hour < 12 then "AM" else "PM") + " UTC";
    assert Strftime(t) == date + hour + time;
    Framed(date, hour, time);
    assert (date + hour + time)[|date|..|date| + |hour|] == hour;
  }

  /**
   * `format_utc`: a falsy value gives "Unknown time"; a value that does not
   * parse (every non-string raises inside the parser) gives "Invalid time";
   * otherwise the UTC instant in the fixed layout.
   */
  function FormatUtc(ts: Json, toUtc: ToUtc): (r: string)
    ensures r == "Unknown time" <==> !Truthy(ts)
    ensures r == "Invalid time" <==> Truthy(ts) && (!ts.JStr? || toUtc(ts.s).None?)
    ensures Truthy(ts) && ts.JStr? && toUtc(ts.s).Some? ==> r == Strftime(toUtc(ts.s).value)
  {
    if !Truthy(ts) then "Unknown time"
    else match ts
      case JStr(s) =>
        (match toUtc(s)
         case None => "Invalid time"
         case Some(t) => Strftime(t))
      case _ => "Invalid time"
  }

  /** The three actions the renderer has a sentence for. */
  predicate KnownAction(action: Json) {
    action in {JStr("PUSH"), JStr("PULL_REQUEST"), JStr("MERGE")}
  }

  /**
   * `format_event_for_ui`: a sentence per known action, with "Unknown" for an
   * absent author and "unknown" for an absent branch; any other action, or
   * none ("UNKNOWN"), is named in an "Unknown action" line.
   */
  function RenderEvent(doc: map<string, Json>, toUtc: ToUtc, repr: Repr): (line: string)
    ensures var action := FieldOr(doc, "action", JStr("UNKNOWN"));
      && (KnownAction(action) ==>
            && StartsWith(line, Str(FieldOr(doc, "author", JStr("Unknown")), repr) + " ")
            && EndsWith(line, " on " + FormatUtc(Field(doc, "timestamp"), toUtc)))
      && (!KnownAction(action) ==> StartsWith(line, "Unknown action: "))
  {
    var timestamp := FormatUtc(Field(doc, "timestamp"), toUtc);
    var action := FieldOr(doc, "action", JStr("UNKNOWN"));
    var author := Str(FieldOr(doc, "author", JStr("Unknown")), repr);
    if action == JStr("PUSH") then
      var toBranch := Str(FieldOr(doc, "to_branch", JStr("unknown")), repr);
      Framed3(author, " pushed to ", toBranch, timestamp);
      author + " pushed to " + toBranch + " on " + timestamp
    else if action == JStr("PULL_REQUEST") then
      var fromBranch := Str(FieldOr(doc, "from_branch", JStr("unknown")), repr);
      var toBranch := Str(FieldOr(doc, "to_branch", JStr("unknown")), repr);
      Framed5(author, " submitted a pull request from ", fromBranch, " to ", toBranch, timestamp);
      author + " submitted a pull request from " + fromBranch + " to " + toBranch + " on " + timestamp
    else if action == JStr("MERGE") then
      var fromBranch := Str(FieldOr(doc, "from_branch", JStr("unknown")), repr);
      var toBranch := Str(FieldOr(doc, "to_branch", JStr("unknown")), repr);
      Framed5(author, " merged branch ", fromBranch, " to ", toBranch, timestamp);
      author + " merged branch " + fromBranch + " to " + toBranch + " on " + timestamp
    else
      var name := Str(action, repr);
      Framed("Unknown action: ", name, []);
      assert "Unknown action: " + name + [] == "Unknown action: " + name;
      "Unknown action: " + name
  }

  // ---------------------------------------------------------------------
  // Properties of the renderer

  /** A formatted instant is never mistaken for either placeholder. */
  lemma FormattedTimeIsNotPlaceholder(t: UtcTime)
    ensures Strftime(t) != "Unknown time" && Strftime(t) != "Invalid time"
  {
    var r := Strftime(t);
    assert IsDigit(r[0]);
  }

  /** An event without an action, and one with an action outside the three, name it. */
  lemma UnknownActionLine(doc: map<string, Json>, toUtc: ToUtc, repr: Repr)
    ensures "action" !in doc ==> RenderEvent(doc, toUtc, repr) == "Unknown action: " + "UNKNOWN"
    ensures "action" in doc && doc["action"].JStr? && doc["action"].s !in {"PUSH", "PULL_REQUEST", "MERGE"}
      ==> RenderEvent(doc, toUtc, repr) == "Unknown action: " + doc["action"].s
    ensures "action" in doc && doc["action"] == JNull ==> RenderEvent(doc, toUtc, repr) == "Unknown action: " + "None"
  {
  }

  lemma FrobnicateExample(doc: map<string, Json>, toUtc: ToUtc, repr: Repr)
    requires "action" in doc && doc["action"] == JStr("FROBNICATE")
    ensures RenderEvent(doc, toUtc, repr) == "Unknown action: FROBNICATE"
  {
  }

  /** The sentence of each known action, with the defaults for absent fields. */
  lemma ActionSentences(doc: map<string, Json>, toUtc: ToUtc, repr: Repr)
    ensures var author := Str(FieldOr(doc, "author", JStr("Unknown")), repr);
      var fromBranch := Str(FieldOr(doc, "from_branch", JStr("unknown")), repr);
      var toBranch := Str(FieldOr(doc, "to_branch", JStr("unknown")), repr);
      var time := FormatUtc(Field(doc, "timestamp"), toUtc);
      var line := RenderEvent(doc, toUtc, repr);
      && (Field(doc, "action") == JStr("PUSH") ==>
            line == author + " pushed to " + toBranch + " on " + time)
      && (Field(doc, "action") == JStr("PULL_REQUEST") ==>
            line == author + " submitted a pull request from " + fromBranch + " to " + toBranch + " on " + time)
      && (Field(doc, "action") == JStr("MERGE") ==>
            line == author + " merged branch " + fromBranch + " to " + toBranch + " on " + time)
  {
  }

  /** A text built as `p + mid + s` starts with `p` and ends with `s`. */
  lemma Framed(p: string, mid: string, s: string)
    ensures StartsWith(p + mid + s, p) && EndsWith(p + mid + s, s)
  {
    var w := p + mid + s;
    assert w[..|p|] == p;
    assert w[|w| - |s|..] == s;
  }

  lemma Framed3(author: string, verb: string, branch: string, time: string)
    requires |verb| > 0 && verb[0] == ' '
    ensures var line := author + verb + branch + " on " + time;
      StartsWith(line, author + " ") && EndsWith(line, " on " + time)
  {
    var line := author + verb + branch + " on " + time;
    assert line == (author + " ") + (verb[1..] + branch) + (" on " + time);
    Framed(author + " ", verb[1..] + branch, " on " + time);
  }

  lemma Framed5(author: string, verb: string, fromBranch: string, to: string, toBranch: string, time: string)
    requires |verb| > 0 && verb[0] == ' '
    ensures var line := author + verb + fromBranch + to + toBranch + " on " + time;
      StartsWith(line, author + " ") && EndsWith(line, " on " + time)
  {
    var line := author + verb + fromBranch + to + toBranch + " on " + time;
    assert line == (author + " ") + (verb[1..] + fromBranch + to + toBranch) + (" on " + time);
    Framed(author + " ", verb[1..] + fromBranch + to + toBranch, " on " + time);
  }

  /**
   * The defaults stand in only for ABSENT fields: an author stored as null
   * renders as "None", not "Unknown", a branch stored as null as "None", not
   * "unknown"; an absent time renders as "Unknown time".
   */
  lemma DefaultsOnlyWhenAbsent(doc: map<string, Json>, toUtc: ToUtc, repr: Repr)
    requires KnownAction(Field(doc, "action"))
    ensures "author" !in doc ==> StartsWith(RenderEvent(doc, toUtc, repr), "Unknown" + " ")
    ensures "author" in doc && doc["author"] == JNull ==> StartsWith(RenderEvent(doc, toUtc, repr), "None" + " ")
    ensures "timestamp" !in doc ==> EndsWith(RenderEvent(doc, toUtc, repr), " on " + "Unknown time")
  {
  }

  /**
   * Likewise for the branches: an absent branch renders as "unknown", one
   * stored as null as "None".
   */
  lemma BranchDefaultsOnlyWhenAbsent(doc: map<string, Json>, toUtc: ToUtc, repr: Repr)
    ensures var author := Str(FieldOr(doc, "author", JStr("Unknown")), repr);
      var toBranch := Str(FieldOr(doc, "to_branch", JStr("unknown")), repr);
      var time := FormatUtc(Field(doc, "timestamp"), toUtc);
      var line := RenderEvent(doc, toUtc, repr);
      && (Field(doc, "action") == JStr("PUSH") && "to_branch" !in doc ==>
            line == author + " pushed to " + "unknown" + " on " + time)
      && (Field(doc, "action") == JStr("PUSH") && "to_branch" in doc && doc["to_branch"] == JNull ==>
            line == author + " pushed to " + "None" + " on " + time)
      && (Field(doc, "action") == JStr("PULL_REQUEST") && "from_branch" !in doc ==>
            line == author + " submitted a pull request from " + "unknown" + " to " + toBranch + " on " + time)
      && (Field(doc, "action") == JStr("PULL_REQUEST") && "from_branch" in doc && doc["from_branch"] == JNull ==>
            line == author + " submitted a pull request from " + "None" + " to " + toBranch + " on " + time)
  {
    ActionSentences(doc, toUtc, repr);
  }

  /** Each of the three actions the receiver writes has its own sentence, never the unknown-action line. */
  lemma StoredEventSentence(e: Event, toUtc: ToUtc, repr: Repr)
    ensures var line := RenderEvent(ToDocument(e), toUtc, repr);
      var time := FormatUtc(e.timestamp, toUtc);
      && (e.action == PUSH ==>
            line == Str(e.author, repr) + " pushed to " + Str(e.toBranch, repr) + " on " + time)
      && (e.action == PULL_REQUEST ==>
            line == Str(e.author, repr) + " submitted a pull request from " + Str(e.fromBranch, repr)
                    + " to " + Str(e.toBranch, repr) + " on " + time)
      && (e.action == MERGE ==>
            line == Str(e.author, repr) + " merged branch " + Str(e.fromBranch, repr)
                    + " to " + Str(e.toBranch, repr) + " on " + time)
  {
    ActionSentences(ToDocument(e), toUtc, repr);
  }

  lemma MainBranch()
    ensures LastSegment("refs/heads/main") == "main"
  {
    assert "refs/heads/main" == "refs/heads" + ['/'] + "main";
    LastSegmentAfterSlash("refs/heads", "main");
  }

  lemma ExampleTime()
    ensures Strftime(DateTime(2024, 1, 15, 10, 30)) == "15 January 2024 - 10:30 AM UTC"
  {
    ExampleTimeFields();
  }

  /** The fields of 2024-01-15 10:30 as `strftime` writes them. */
  lemma ExampleTimeFields()
    ensures NatText(15) == "15" && NatText(2024) == "2024" && NatText(Hour12(10)) == "10"
    ensures Pad2(30) == "30" && MonthName(1) == "January"
  {
    assert NatText(1) == "1";
    assert NatText(2) == "2" && NatText(20) == "20" && NatText(202) == "202";
  }

  /** The push of commit "abc123" by alice to refs/heads/main, as the receiver gets it. */
  function ExamplePush(): Request {
    Request(Some("application/json"), Some("push"), Some(JObject(map[
      "head_commit" := JObject(map["id" := JStr("abc123"), "timestamp" := JStr("2024-01-15T10:30:00Z")]),
      "pusher" := JObject(map["name" := JStr("alice")]),
      "ref" := JStr("refs/heads/main")])))
  }

  /** The example push is stored with target branch "main" and no source branch. */
  lemma ExamplePushStored(repr: Repr, store: StoreReply)
    ensures Receive(ExamplePush(), repr, store).inserted
      == Some(Event(JStr("abc123"), JStr("alice"), PUSH, JNull, JStr("main"), JStr("2024-01-15T10:30:00Z")))
  {
    var req := ExamplePush();
    var m := req.body.value.fields;
    var commit := m["head_commit"].fields;
    assert commit["id"] == JStr("abc123") && commit["timestamp"] == JStr("2024-01-15T10:30:00Z");
    assert m["pusher"].fields["name"] == JStr("alice") && m["ref"] == JStr("refs/heads/main");
    assert WellFormedPush(m);
    MainBranch();
    PushRecordFields(req, repr, m);
  }

  /**
   * The stored example renders as "alice pushed to main on 15 January 2024 -
   * 10:30 AM UTC": the push sentence filled in with its author, its branch and
   * its time.
   */
  lemma ExamplePushLine(toUtc: ToUtc, repr: Repr)
    requires toUtc("2024-01-15T10:30:00Z") == Some(DateTime(2024, 1, 15, 10, 30))
    ensures RenderEvent(ToDocument(Event(JStr("abc123"), JStr("alice"), PUSH, JNull, JStr("main"), JStr("2024-01-15T10:30:00Z"))), toUtc, repr)
      == "alice" + " pushed to " + "main" + " on " + "15 January 2024 - 10:30 AM UTC"
  {
    ExampleTime();
    var e := Event(JStr("abc123"), JStr("alice"), PUSH, JNull, JStr("main"), JStr("2024-01-15T10:30:00Z"));
    assert FormatUtc(e.timestamp, toUtc) == "15 January 2024 - 10:30 AM UTC";
    assert Str(e.author, repr) == "alice" && Str(e.toBranch, repr) == "main";
    StoredEventSentence(e, toUtc, repr);
  }
}
