/**
 * The webhook receiver (`POST /webhook/receiver`): from the Content-Type
 * header, the X-GitHub-Event header and the parsed body, decide whether the
 * request is rejected, ignored, fails, or yields one event record to store,
 * and build the response. Storing is the one effect; the record handed to the
 * store is part of the outcome, and the store's answer is a parameter.
 */
module Receiver {
  import opened Wrappers
  import opened PyText
  import opened PyJson

  const JsonContentType: string := "application/json"
  const PushEvent: string := "push"
  const PullRequestEvent: string := "pull_request"
  const NoHeadCommit: string := "No head_commit"
  const EventNotHandled: string := "Event type not handled"
  const InvalidContentType: string := "Invalid Content-Type"

  /** The keys whose absence the handler reports, for push and for pull requests. */
  const PushKeys: set<string> := {"id", "pusher", "name", "ref", "timestamp"}
  const PullRequestKeys: set<string> := {"pull_request", "number", "user", "login", "head", "base", "ref"}

  /**
   * What the handler reads from the request. An absent header is `None`;
   * `body` is `None` when the body does not parse as JSON.
   */
  datatype Request = Request(contentType: Option<string>, eventType: Option<string>, body: Option<Json>)

  datatype Action = PUSH | PULL_REQUEST | MERGE

  function ActionName(a: Action): (r: string)
    ensures r in {"PUSH", "PULL_REQUEST", "MERGE"}
  {
    match a
    case PUSH => "PUSH"
    case PULL_REQUEST => "PULL_REQUEST"
    case MERGE => "MERGE"
  }

  /**
   * The canonical record the receiver stores. Every field other than the
   * action holds the payload's value as it came; a push has no source branch.
   */
  datatype Event = Event(
    requestId: Json,
    author: Json,
    action: Action,
    fromBranch: Json,
    toBranch: Json,
    timestamp: Json)

  /** The stored document: the six keys of the record, the action as its name. */
  function ToDocument(e: Event): (doc: map<string, Json>)
    ensures doc.Keys == {"request_id", "author", "action", "from_branch", "to_branch", "timestamp"}
    ensures doc["action"] == JStr(ActionName(e.action))
    ensures doc["author"] == e.author && doc["to_branch"] == e.toBranch
    ensures doc["from_branch"] == e.fromBranch && doc["timestamp"] == e.timestamp
    ensures doc["request_id"] == e.requestId
  {
    map[
      "request_id" := e.requestId,
      "author" := e.author,
      "action" := JStr(ActionName(e.action)),
      "from_branch" := e.fromBranch,
      "to_branch" := e.toBranch,
      "timestamp" := e.timestamp]
  }

  /** A recognised payload is either ignored, with a reason, or yields a record. */
  datatype Normal = Ignored(reason: string) | Record(event: Event)

  /** `data['ref'].split('/')[-1]` after the lookup: only text has `split`. */
  function BranchOfRef(ref: Json): (r: Eval<string>)
    ensures r.Value? <==> ref.JStr?
    ensures r.Value? ==> r.v == LastSegment(ref.s)
    ensures r.Raised? ==> r.exc == OtherError
  {
    match ref
    case JStr(s) => Value(LastSegment(s))
    case _ => Raised(OtherError)
  }

  /**
   * The push record of a payload dict whose `head_commit` was found truthy,
   * its fields evaluated in the order the dict literal lists them.
   */
  function PushRecord(data: map<string, Json>): (r: Eval<Event>)
    requires "head_commit" in data
    ensures r.Raised? && r.exc.KeyError? ==> r.exc.key in PushKeys
    ensures r.Value? ==> r.v.action == PUSH && r.v.fromBranch == JNull && r.v.toBranch.JStr?
  {
    var commit := data["head_commit"];
    var id :- Subscript(commit, "id");
    var pusher :- Index(data, "pusher");
    var name :- Subscript(pusher, "name");
    var ref :- Index(data, "ref");
    var toBranch :- BranchOfRef(ref);
    var timestamp :- Subscript(commit, "timestamp");
    Value(Event(id, name, PUSH, JNull, JStr(toBranch), timestamp))
  }

  /** A push: ignored without a truthy `head_commit`, otherwise its record. */
  function NormalizePush(data: Json): (r: Eval<Normal>)
    ensures r.Raised? && r.exc.KeyError? ==> r.exc.key in PushKeys
    ensures r.Value? && r.v.Ignored? ==> r.v.reason == NoHeadCommit
  {
    match data
    case JObject(fields) =>
      if !Truthy(Field(fields, "head_commit")) then Value(Ignored(NoHeadCommit))
      else
        var e :- PushRecord(fields);
        Value(Record(e))
    case _ =>
      // `data.get('head_commit')`: a non-dict has no `get`
      Raised(OtherError)
  }

  /**
   * Merge exactly when the payload's action is "closed" and the pull request is
   * merged; an absent `merged` counts as not merged.
   */
  predicate IsMerge(prAction: Json, pr: map<string, Json>)
    ensures IsMerge(prAction, pr) <==> prAction == JStr("closed") && "merged" in pr && Truthy(pr["merged"])
  {
    prAction == JStr("closed") && Truthy(Field(pr, "merged"))
  }

  /**
   * The timestamp of a pull-request record: `merged_at` for a merge and
   * `created_at` otherwise, replaced when falsy by `updated_at or created_at`.
   */
  function PullRequestTimestamp(merge: bool, pr: map<string, Json>): (ts: Json)
    ensures var primary := Field(pr, if merge then "merged_at" else "created_at");
      && (Truthy(primary) ==> ts == primary)
      && (!Truthy(primary) && Truthy(Field(pr, "updated_at")) ==> ts == Field(pr, "updated_at"))
      && (!Truthy(primary) && !Truthy(Field(pr, "updated_at")) ==> ts == Field(pr, "created_at"))
  {
    var timestamp := Field(pr, if merge then "merged_at" else "created_at");
    if !Truthy(timestamp) then Or(Field(pr, "updated_at"), Field(pr, "created_at")) else timestamp
  }

  /** The pull-request record, its fields evaluated in the order the dict literal lists them. */
  function PullRequestRecord(data: Json, repr: Repr): (r: Eval<Event>)
    ensures r.Raised? && r.exc.KeyError? ==> r.exc.key in PullRequestKeys
    ensures r.Value? ==> r.v.action != PUSH && r.v.requestId.JStr?
  {
    match data
    case JObject(payload) =>
      var pr :- Index(payload, "pull_request");
      PullRequestFields(Field(payload, "action"), pr, repr)
    case _ =>
      // `data['pull_request']` on a non-dict: TypeError
      Raised(OtherError)
  }

  /** The record built from `data['pull_request']` and the payload's `action`. */
  function PullRequestFields(prAction: Json, pr: Json, repr: Repr): (r: Eval<Event>)
    ensures r.Raised? && r.exc.KeyError? ==> r.exc.key in PullRequestKeys
    ensures r.Value? ==> r.v.action != PUSH && r.v.requestId.JStr?
  {
    match pr
    case JObject(fields) =>
      var merge := IsMerge(prAction, fields);
      var timestamp := PullRequestTimestamp(merge, fields);
      var number :- Index(fields, "number");
      var user :- Index(fields, "user");
      var login :- Subscript(user, "login");
      var head :- Index(fields, "head");
      var fromBranch :- Subscript(head, "ref");
      var base :- Index(fields, "base");
      var toBranch :- Subscript(base, "ref");
      var action := if merge then MERGE else PULL_REQUEST;
      Value(Event(JStr(Str(number, repr)), login, action, fromBranch, toBranch, timestamp))
    case _ =>
      // `pr.get('merged')` in the log line: a non-dict has no `get`
      Raised(OtherError)
  }

  /** Normalisation by event kind; kinds other than push and pull_request are ignored. */
  function Normalize(eventType: Option<string>, data: Json, repr: Repr): (r: Eval<Normal>)
    ensures r.Raised? && r.exc.KeyError? ==> r.exc.key in PushKeys + PullRequestKeys
    ensures r.Value? && r.v.Ignored? ==> r.v.reason in {NoHeadCommit, EventNotHandled}
    ensures eventType !in {Some(PushEvent), Some(PullRequestEvent)} ==> r == Value(Ignored(EventNotHandled))
  {
    if eventType == Some(PushEvent) then NormalizePush(data)
    else if eventType == Some(PullRequestEvent) then
      var e :- PullRequestRecord(data, repr);
      Value(Record(e))
    else Value(Ignored(EventNotHandled))
  }

  /** The receiver's decision, before any response text. */
  datatype Decision =
    | BadContentType
    | Ignore(reason: string)
    | Missing(key: string)   // a KeyError, answered with 400
    | Unexpected             // any other exception, answered with 500
    | Store(event: Event)

  /** The handler's control flow, from the content-type test to the record to insert. */
  function Decide(req: Request, repr: Repr): (d: Decision)
    ensures d.BadContentType? <==> req.contentType != Some(JsonContentType)
    ensures d.Missing? ==> d.key in PushKeys + PullRequestKeys
    ensures d.Ignore? ==> d.reason in {NoHeadCommit, EventNotHandled}
    ensures d.Store? ==> req.eventType in {Some(PushEvent), Some(PullRequestEvent)}
    ensures d.Store? && d.event.action == PUSH <==> d.Store? && req.eventType == Some(PushEvent)
  {
    if req.contentType != Some(JsonContentType) then BadContentType
    else match req.body
      case None => Unexpected   // `request.get_json()` raises on a body that does not parse
      case Some(data) =>
        if Truthy(data) && !data.JObject? then Unexpected   // `data.keys()` in the log line
        else match Normalize(req.eventType, data, repr)
          case Value(Ignored(reason)) => Ignore(reason)
          case Value(Record(e)) => Store(e)
          case Raised(KeyError(k)) => Missing(k)
          case Raised(OtherError) => Unexpected
  }

  /** `str(KeyError(k))` for the handler's keys, which hold no quote or backslash. */
  function KeyErrorText(k: string): (r: string)
    ensures |r| == |k| + 2 && r[0] == '\'' && r[|r| - 1] == '\'' && r[1..|r| - 1] == k
  {
    "'" + k + "'"
  }

  /**
   * The JSON object of a response: `{status, message}`, `{status: "success",
   * inserted_id}`, or `{status: "error", message}` for an unexpected
   * exception, whose message text is not modelled.
   */
  datatype Body = Reply(status: string, message: string) | Success(insertedId: string) | Failure

  datatype Response = Response(code: int, body: Body)

  /**
   * What the store answers: the id `insert_one` assigned, or an exception from
   * `insert_one` or from the `find_one` after it. An empty `find_one` is only
   * logged, so it still counts as `Stored`.
   */
  datatype StoreReply = Stored(insertedId: string) | StoreError

  /** The response and the record handed to `insert_one`, if any. */
  datatype Outcome = Outcome(response: Response, inserted: Option<Event>)

  /** `github_webhook`: the decision turned into a response, inserting exactly the stored record. */
  function Receive(req: Request, repr: Repr, store: StoreReply): (o: Outcome)
    ensures o.inserted.Some? <==> Decide(req, repr).Store?
    ensures o.inserted.Some? ==> o.inserted.value == Decide(req, repr).event
    ensures o.response.body.Success? <==> o.inserted.Some? && store.Stored?
    ensures o.response.body.Success? ==> o.response == Response(200, Success(store.insertedId))
    ensures o.response.code in {200, 400, 500}
    ensures o.response.code == 400 ==> o.response.body.Reply? && o.response.body.status == "error"
    ensures o.response.code == 200 ==> o.response.body.Success? || (o.response.body.Reply? && o.response.body.status == "ignored")
  {
    match Decide(req, repr)
    case BadContentType => Outcome(Response(400, Reply("error", InvalidContentType)), None)
    case Ignore(reason) => Outcome(Response(200, Reply("ignored", reason)), None)
    case Missing(k) => Outcome(Response(400, Reply("error", "Missing key: " + KeyErrorText(k))), None)
    case Unexpected => Outcome(Response(500, Failure), None)
    case Store(e) =>
      match store
      case Stored(id) => Outcome(Response(200, Success(id)), Some(e))
      case StoreError => Outcome(Response(500, Failure), Some(e))
  }

  // ---------------------------------------------------------------------
  // Properties of the receiver

  /** Any Content-Type other than exactly "application/json" is refused before the body is read. */
  lemma InvalidContentTypeRejected(req: Request, repr: Repr, store: StoreReply)
    requires req.contentType != Some(JsonContentType)
    ensures Receive(req, repr, store) == Outcome(Response(400, Reply("error", "Invalid Content-Type")), None)
  {
  }

  /** A parameter after the media type is refused too. */
  lemma CharsetParameterRejected(eventType: Option<string>, body: Option<Json>, repr: Repr, store: StoreReply)
    ensures Receive(Request(Some("application/json; charset=utf-8"), eventType, body), repr, store).response.code == 400
  {
  }

  /**
   * The two ignore outcomes, exactly: an unhandled kind over a payload that
   * is a dict or falsy, and a push dict whose `head_commit` is absent or falsy.
   */
  lemma IgnoredExactly(req: Request, repr: Repr, store: StoreReply)
    ensures var o := Receive(req, repr, store);
      && (o.response == Response(200, Reply("ignored", EventNotHandled)) <==>
          && req.contentType == Some(JsonContentType)
          && req.body.Some?
          && (req.body.value.JObject? || !Truthy(req.body.value))
          && req.eventType !in {Some(PushEvent), Some(PullRequestEvent)})
      && (o.response == Response(200, Reply("ignored", NoHeadCommit)) <==>
          && req.contentType == Some(JsonContentType)
          && req.body.Some? && req.body.value.JObject?
          && req.eventType == Some(PushEvent)
          && !Truthy(Field(req.body.value.fields, "head_commit")))
      && (o.response.body.Reply? && o.response.body.status == "ignored" ==> o.inserted == None)
  {
  }

  /**
   * A payload that is truthy but not a dict fails with 500 whatever the event
   * kind, because its keys are listed for the log before the kind is looked at.
   */
  lemma TruthyNonObjectPayloadFails(req: Request, repr: Repr, store: StoreReply)
    requires req.contentType == Some(JsonContentType)
    requires req.body.Some? && Truthy(req.body.value) && !req.body.value.JObject?
    ensures Receive(req, repr, store) == Outcome(Response(500, Failure), None)
  {
  }

  /** A push payload with every key in place, in the shapes the handler indexes. */
  predicate WellFormedPush(m: map<string, Json>) {
    && "head_commit" in m && m["head_commit"].JObject?
    && "id" in m["head_commit"].fields && "timestamp" in m["head_commit"].fields
    && "pusher" in m && m["pusher"].JObject? && "name" in m["pusher"].fields
    && "ref" in m && m["ref"].JStr?
  }

  /**
   * A push is stored exactly when its payload is well formed, and the record
   * takes the commit id, the pusher's name and the commit timestamp verbatim,
   * no source branch, and as target the text after the last '/' of `ref`.
   */
  lemma PushRecordFields(req: Request, repr: Repr, m: map<string, Json>)
    requires req.contentType == Some(JsonContentType) && req.eventType == Some(PushEvent)
    requires req.body == Some(JObject(m))
    ensures Decide(req, repr).Store? <==> WellFormedPush(m)
    ensures Decide(req, repr).Store? ==>
      var commit := m["head_commit"].fields;
      var ref := m["ref"].s;
      var branch := LastSegment(ref);
      && Decide(req, repr).event == Event(commit["id"], m["pusher"].fields["name"], PUSH, JNull, JStr(branch), commit["timestamp"])
      && '/' !in branch
      && |branch| <= |ref| && ref[|ref| - |branch|..] == branch
      && (|branch| == |ref| || ref[|ref| - |branch| - 1] == '/')
  {
    if WellFormedPush(m) {
      LastSegmentIsTail(m["ref"].s);
    }
  }

  /**
   * Which key a push reports missing: the first absent one in the order the
   * record is built, `id`, `pusher`, `name`, `ref`, `timestamp`.
   */
  lemma PushMissingKeyOrder(req: Request, repr: Repr, m: map<string, Json>)
    requires req.contentType == Some(JsonContentType) && req.eventType == Some(PushEvent)
    requires req.body == Some(JObject(m))
    requires "head_commit" in m && m["head_commit"].JObject? && Truthy(m["head_commit"])
    ensures var c := m["head_commit"].fields;
      var d := Decide(req, repr);
      && ("id" !in c ==> d == Missing("id"))
      && ("id" in c && "pusher" !in m ==> d == Missing("pusher"))
      && ("id" in c && "pusher" in m && m["pusher"].JObject? && "name" !in m["pusher"].fields ==> d == Missing("name"))
      && ("id" in c && "pusher" in m && m["pusher"].JObject? && "name" in m["pusher"].fields && "ref" !in m ==> d == Missing("ref"))
      && (("id" in c && "pusher" in m && m["pusher"].JObject? && "name" in m["pusher"].fields
           && "ref" in m && m["ref"].JStr? && "timestamp" !in c) ==> d == Missing("timestamp"))
      && ("id" in c && "pusher" in m && !m["pusher"].JObject? ==> d == Unexpected)
  {
  }

  /** A pull-request payload with every key in place, in the shapes the handler indexes. */
  predicate WellFormedPullRequest(pr: map<string, Json>) {
    && "number" in pr
    && "user" in pr && pr["user"].JObject? && "login" in pr["user"].fields
    && "head" in pr && pr["head"].JObject? && "ref" in pr["head"].fields
    && "base" in pr && pr["base"].JObject? && "ref" in pr["base"].fields
  }

  /**
   * A pull request is stored exactly when its payload is well formed; the
   * record is a MERGE, timed by `merged_at`, exactly when the top-level action
   * is "closed" and `merged` is truthy, else a PULL_REQUEST timed by
   * `created_at`; a falsy time falls back to `updated_at`, then `created_at`.
   */
  lemma PullRequestRecordFields(req: Request, repr: Repr, m: map<string, Json>, pr: map<string, Json>)
    requires req.contentType == Some(JsonContentType) && req.eventType == Some(PullRequestEvent)
    requires req.body == Some(JObject(m))
    requires "pull_request" in m && m["pull_request"] == JObject(pr)
    ensures Decide(req, repr).Store? <==> WellFormedPullRequest(pr)
    ensures Decide(req, repr).Store? ==>
      var e := Decide(req, repr).event;
      var merge := Field(m, "action") == JStr("closed") && Truthy(Field(pr, "merged"));
      var primary := Field(pr, if merge then "merged_at" else "created_at");
      && (e.action == MERGE <==> merge)
      && (e.action == PULL_REQUEST <==> !merge)
      && e.requestId == JStr(Str(pr["number"], repr))
      && e.author == pr["user"].fields["login"]
      && e.fromBranch == pr["head"].fields["ref"]
      && e.toBranch == pr["base"].fields["ref"]
      && e.timestamp == (if Truthy(primary) then primary else Or(Field(pr, "updated_at"), Field(pr, "created_at")))
  {
  }

  /** A stored pull request's time is falsy only when all three candidate times are. */
  lemma PullRequestTimestampFalsy(merge: bool, pr: map<string, Json>)
    ensures Truthy(PullRequestTimestamp(merge, pr)) <==>
      Truthy(Field(pr, if merge then "merged_at" else "created_at"))
      || Truthy(Field(pr, "updated_at")) || Truthy(Field(pr, "created_at"))
  {
  }

  /**
   * Which key a pull request reports missing: `pull_request` first, then in
   * the order the record is built, `number`, `user`, `login`, `head`, `ref`
   * (of head), `base`, `ref` (of base).
   */
  lemma PullRequestMissingKeyOrder(req: Request, repr: Repr, m: map<string, Json>)
    requires req.contentType == Some(JsonContentType) && req.eventType == Some(PullRequestEvent)
    requires req.body == Some(JObject(m))
    ensures var d := Decide(req, repr);
      && ("pull_request" !in m ==> d == Missing("pull_request"))
      && ("pull_request" in m && !m["pull_request"].JObject? ==> d == Unexpected)
      && ("pull_request" in m && m["pull_request"].JObject? ==>
            var pr := m["pull_request"].fields;
            && ("number" !in pr ==> d == Missing("number"))
            && ("number" in pr && "user" !in pr ==> d == Missing("user"))
            && ("number" in pr && "user" in pr && pr["user"].JObject? && "login" !in pr["user"].fields
                ==> d == Missing("login"))
            && (("number" in pr && "user" in pr && pr["user"].JObject? && "login" in pr["user"].fields
                 && "head" !in pr) ==> d == Missing("head"))
            && (("number" in pr && "user" in pr && pr["user"].JObject? && "login" in pr["user"].fields
                 && "head" in pr && pr["head"].JObject? && "ref" !in pr["head"].fields) ==> d == Missing("ref"))
            && (("number" in pr && "user" in pr && pr["user"].JObject? && "login" in pr["user"].fields
                 && "head" in pr && pr["head"].JObject? && "ref" in pr["head"].fields
                 && "base" !in pr) ==> d == Missing("base"))
            && (("number" in pr && "user" in pr && pr["user"].JObject? && "login" in pr["user"].fields
                 && "head" in pr && pr["head"].JObject? && "ref" in pr["head"].fields
                 && "base" in pr && pr["base"].JObject? && "ref" !in pr["base"].fields) ==> d == Missing("ref")))
  {
  }

  /** A missing key is answered with 400 and the key quoted as `str(KeyError)` quotes it. */
  lemma MissingKeyResponse(req: Request, repr: Repr, store: StoreReply)
    requires Decide(req, repr).Missing?
    ensures var k := Decide(req, repr).key;
      && Receive(req, repr, store) == Outcome(Response(400, Reply("error", "Missing key: '" + k + "'")), None)
      && k in PushKeys + PullRequestKeys
  {
  }

  /**
   * The request id of a pull request numbered by an integer reads back as
   * that number, so distinct numbers give distinct ids.
   */
  lemma PullRequestIdReadsBack(req: Request, repr: Repr, m: map<string, Json>, pr: map<string, Json>, n: int)
    requires req.contentType == Some(JsonContentType) && req.eventType == Some(PullRequestEvent)
    requires req.body == Some(JObject(m))
    requires "pull_request" in m && m["pull_request"] == JObject(pr)
    requires "number" in pr && pr["number"] == JInt(n)
    requires Decide(req, repr).Store?
    ensures Decide(req, repr).event.requestId == JStr(IntText(n))
    ensures IsIntText(IntText(n)) && ReadInt(IntText(n)) == n
  {
    PullRequestRecordFields(req, repr, m, pr);
    IntTextRoundTrip(n);
  }
}
