# GitHub webhook receiver: a Dafny model

The service receives GitHub webhook deliveries on `POST /webhook/receiver`,
turns `push` and `pull_request` deliveries into one canonical event record
(`request_id`, `author`, `action` ∈ {PUSH, PULL_REQUEST, MERGE},
`from_branch`, `to_branch`, `timestamp`), stores it in MongoDB, and renders
stored events as one English sentence each for its listing pages.

This project models the two pieces of `app/webhook/routes.py` that hold logic:

- **The receiver decision** (`github_webhook`). It takes the `Content-Type`
  header, the `X-GitHub-Event` header and the parsed JSON body. It answers
  400 for a wrong content type, 200 "ignored" for an unhandled kind or a push
  without `head_commit`, 400 "Missing key: '<k>'" for a `KeyError`, 500 for
  any other exception, and otherwise 200 "success" after inserting the
  record. Modules `Receiver` (receiver.dfy), `PyJson` (json.dfy) and `PyText`
  (text.dfy).
- **The rendering** (`format_event_for_ui` and `format_utc`). It maps a
  stored document, with any of its keys possibly absent, to a sentence.
  Module `Render` (render.dfy).

All of it is pure: functions and lemmas, no state.

How Python's behaviour is written out:

- The payload is a `Json` value: null, bool, int, float, string, list or
  object. `Truthy` is Python's truth value; `Or` is Python's `or`.
- Evaluating `d[k]` gives an `Eval`: a value, `KeyError(k)`, or some other
  exception (`OtherError`, e.g. a `TypeError` when `d` is not a dict). The
  record builders chain these with `:-` in the order the source evaluates its
  dict literals. So the key a `KeyError` reports is the first one the source
  actually looks up and finds missing.
- `str(KeyError('id'))` is `'id'` with the quotes. So the message for a
  missing key names only the last key of the path (`'id'`, not
  `head_commit.id`). A missing `pusher` is reported as `'pusher'`.
- The store is a parameter. `StoreReply` is the store's answer: the id
  `insert_one` assigned, or an exception from `insert_one` or the `find_one`
  after it (500). A `find_one` that finds nothing is only logged, so the
  reply is still 200 "success". `Outcome.inserted` is the record handed to
  `insert_one`.

Where the code and the service's design description differ, the model follows
the code:

- A body that is not valid JSON makes `request.get_json()` raise. That is
  caught by the generic handler: 500, not 400.
- The log line at routes.py:80 calls `data.keys()` whenever the payload is
  truthy. So a truthy payload that is not an object fails with 500 for every
  event kind, unhandled kinds included (`TruthyNonObjectPayloadFails`).
- A payload value of the wrong shape (e.g. `head_commit` a string, `pusher`
  null, `ref` not a string) raises a `TypeError` or `AttributeError`: 500,
  not a missing-field error.
- The missing-key message quotes the single key, not the field path.

## Model

| member | source | states |
|---|---|---|
| `PyText.LastSegment` | app/webhook/routes.py:93 | `split('/')[-1]` holds no '/' |
| `PyText.Split` | app/webhook/routes.py:93 | `ref.split('/')` yields at least one piece and no piece holds a '/' |
| `PyText.SplitJoin` | app/webhook/routes.py:93 | joining the pieces of `split('/')` with '/' gives back the ref |
| `PyText.LastSegmentIsTail` | app/webhook/routes.py:93 | `split('/')[-1]` is the suffix of the ref after its last '/' (the whole ref when it has none) and holds no '/' |
| `PyText.LastSegmentAfterSlash` | app/webhook/routes.py:93 | a ref `prefix/name` with no '/' in `name` gives the branch `name` |
| `PyText.NatText` | app/webhook/routes.py:119 | `str()` of a non-negative int is a non-empty run of digits without a leading zero |
| `PyText.IntText` | app/webhook/routes.py:119 | `str()` of an int starts with '-' exactly when it is negative |
| `PyText.NatTextRoundTrip` | app/webhook/routes.py:119 | reading back the digits of `str(n)` gives `n`, for `n >= 0` |
| `PyText.IntTextRoundTrip` | app/webhook/routes.py:119 | `int(str(n)) == n`: the decimal text of a PR number loses nothing |
| `PyText.IntTextInjective` | app/webhook/routes.py:119 | distinct PR numbers give distinct request ids |
| `PyJson.FalsyValues` | app/webhook/routes.py:14 | `Truthy` is Python's `bool()`: the falsy values are exactly None, False, 0, 0.0, "", [] and {} |
| `PyJson.Or` | app/webhook/routes.py:116 | Python `a or b`: `a` when truthy, else `b`; truthy exactly when one of them is |
| `PyJson.Index` | app/webhook/routes.py:89-94 | `d[k]` on a dict is the value under `k`, or raises `KeyError(k)` exactly when `k` is absent |
| `PyJson.Field` | app/webhook/routes.py:84 | `d.get(k)` is what `d[k]` gives where that succeeds, and None where `d[k]` raises `KeyError` |
| `PyJson.FieldOr` | app/webhook/routes.py:26-38 | `d.get(k, default)` is `d.get(k)` for a present key and `default` for an absent one; with default None it is `d.get(k)` |
| `PyJson.Subscript` | app/webhook/routes.py:119-123 | `d[k]` yields a value exactly when `d` is a dict holding `k`; a dict without `k` raises `KeyError(k)`; any other value raises another exception |
| `PyJson.Str` | app/webhook/routes.py:119 | `str(v)` is the text itself for a string, "None" for null, and for an int a text that reads back as it |
| `Receiver.ActionName` | app/webhook/routes.py:91 | the stored action is one of "PUSH", "PULL_REQUEST", "MERGE" |
| `Receiver.ToDocument` | app/webhook/routes.py:88-95 | the stored document has exactly the six record keys, the action stored by name, every other field verbatim |
| `Receiver.BranchOfRef` | app/webhook/routes.py:93 | a string ref gives its last '/'-segment; any other ref raises a non-KeyError exception |
| `Receiver.PushRecord` | app/webhook/routes.py:88-95 | a push record is a PUSH with no source branch and a string target; only `id`, `pusher`, `name`, `ref`, `timestamp` can be reported missing |
| `Receiver.NormalizePush` | app/webhook/routes.py:82-95 | a push is ignored only with reason "No head_commit"; its missing keys are the push keys |
| `Receiver.IsMerge` | app/webhook/routes.py:106 | a merge exactly when the action is "closed" and `merged` is present and truthy |
| `Receiver.PullRequestTimestamp` | app/webhook/routes.py:105-116 | the time is `merged_at` (merge) or `created_at` (otherwise) when truthy, else `updated_at` when truthy, else `created_at` |
| `Receiver.PullRequestRecord` | app/webhook/routes.py:97-125 | a pull-request record is never a PUSH and its request id is text; only the pull-request keys can be reported missing |
| `Receiver.PullRequestFields` | app/webhook/routes.py:102-125 | the same, for the record built from `data['pull_request']` |
| `Receiver.Normalize` | app/webhook/routes.py:82-129 | every kind other than `push` and `pull_request` is ignored with "Event type not handled"; ignore reasons and missing keys come from the fixed sets |
| `Receiver.Decide` | app/webhook/routes.py:74-157 | the content type is refused exactly when it is not exactly "application/json"; only push and pull_request are stored; a stored record is a PUSH exactly for a push |
| `Receiver.KeyErrorText` | app/webhook/routes.py:151 | `str(KeyError(k))` is `k` between single quotes |
| `Receiver.Receive` | app/webhook/routes.py:65-157 | an insert is attempted exactly when the decision is to store, and it is that record; the response is 200 "success" with the inserted id exactly when the insert succeeded; 400 is always an error reply; codes are 200, 400 or 500 |
| `Receiver.InvalidContentTypeRejected` | app/webhook/routes.py:156-157 | any Content-Type other than exactly "application/json" gives 400 "Invalid Content-Type" and no insert |
| `Receiver.CharsetParameterRejected` | app/webhook/routes.py:74 | "application/json; charset=utf-8" is refused with 400 too |
| `Receiver.IgnoredExactly` | app/webhook/routes.py:80-86 | 200 "Event type not handled" exactly for an unhandled kind over a dict or falsy payload; 200 "No head_commit" exactly for a push dict whose `head_commit` is absent or falsy; neither inserts |
| `Receiver.TruthyNonObjectPayloadFails` | app/webhook/routes.py:80 | a truthy non-object payload gives 500 and no insert, whatever the event kind |
| `Receiver.PushRecordFields` | app/webhook/routes.py:84-95 | a push is stored exactly when `head_commit` (with `id`, `timestamp`), `pusher` (with `name`) and a string `ref` are present; the record is id, pusher name, PUSH, null, the text after the last '/' of `ref`, commit timestamp |
| `Receiver.PushMissingKeyOrder` | app/webhook/routes.py:88-95 | the reported key is the first absent one of `id`, `pusher`, `name`, `ref`, `timestamp`; a non-dict `pusher` gives 500 |
| `Receiver.PullRequestRecordFields` | app/webhook/routes.py:98-125 | a pull request is stored exactly when `number`, `user.login`, `head.ref`, `base.ref` are present; it is a MERGE exactly when the action is "closed" and `merged` is truthy; id `str(number)`, author, branches and the fallback time as listed |
| `Receiver.PullRequestTimestampFalsy` | app/webhook/routes.py:114-116 | the stored time is falsy only when the chosen time, `updated_at` and `created_at` all are |
| `Receiver.PullRequestMissingKeyOrder` | app/webhook/routes.py:98-123 | `pull_request` first, then the first absent of `number`, `user`, `login`, `head`, `ref`, `base`, `ref`; a non-dict `pull_request` gives 500 |
| `Receiver.MissingKeyResponse` | app/webhook/routes.py:148-151 | a missing key gives 400 "Missing key: '<k>'", no insert, `k` from the fixed key sets |
| `Receiver.PullRequestIdReadsBack` | app/webhook/routes.py:119 | an integer PR number is stored as its decimal text, which reads back as the number |
| `Render.Hour12` | app/webhook/routes.py:19 | `%-I` is 1 to 12, and with `%p` gives back the hour of the day |
| `Render.Pad2` | app/webhook/routes.py:19 | `%M` is two digits that read back as the minute |
| `Render.MonthName` | app/webhook/routes.py:19 | `%B` is a capitalised name of at least three letters |
| `Render.Strftime` | app/webhook/routes.py:19 | a formatted instant starts with a digit and ends with " UTC" |
| `Render.StrftimeLayout` | app/webhook/routes.py:19 | a formatted instant is the day, the month's name, the year and " - ", then the 12-hour hour, then ':', the two-digit minute, AM or PM and " UTC" |
| `Render.ExampleTime` | app/webhook/routes.py:19 | 2024-01-15 10:30 UTC is written "15 January 2024 - 10:30 AM UTC" |
| `Render.FormatUtc` | app/webhook/routes.py:13-22 | "Unknown time" exactly for a falsy value; "Invalid time" exactly for a truthy value that is not a string or does not parse; otherwise the UTC instant in the fixed layout |
| `Render.FormattedTimeIsNotPlaceholder` | app/webhook/routes.py:19 | a formatted instant never equals either placeholder |
| `Render.RenderEvent` | app/webhook/routes.py:24-41 | a known action's sentence starts with the author and a space and ends with " on " and the formatted time; any other action gives a line starting "Unknown action: " |
| `Render.UnknownActionLine` | app/webhook/routes.py:26-41 | a missing action renders "Unknown action: UNKNOWN"; an unknown text action `a` renders "Unknown action: a"; a null action "Unknown action: None" |
| `Render.FrobnicateExample` | app/webhook/routes.py:40-41 | action "FROBNICATE" renders exactly "Unknown action: FROBNICATE" |
| `Render.ActionSentences` | app/webhook/routes.py:29-39 | the exact PUSH, PULL_REQUEST and MERGE sentences, with "Unknown"/"unknown" for absent author and branches |
| `Render.DefaultsOnlyWhenAbsent` | app/webhook/routes.py:25-27 | an absent author renders "Unknown", a null author "None"; an absent time renders "Unknown time" |
| `Render.BranchDefaultsOnlyWhenAbsent` | app/webhook/routes.py:30-35 | an absent branch renders "unknown", a branch stored as null "None" |
| `Render.StoredEventSentence` | app/webhook/routes.py:29-39 | every record the receiver stores renders with its action's sentence from its own fields |
| `Render.MainBranch` | app/webhook/routes.py:93 | the ref "refs/heads/main" names the branch "main" |
| `Render.ExamplePushStored` | app/webhook/routes.py:88-95 | the push of "abc123" by alice to refs/heads/main stores to_branch "main" and no source branch |
| `Render.ExamplePushLine` | app/webhook/routes.py:29-31 | that record renders "alice pushed to main on 15 January 2024 - 10:30 AM UTC" |

## Left out

- MongoDB: `insert_one`, the check-back `find_one` and its `print`, and the
  listing queries `find().sort('timestamp', -1).limit(10)`. The store's
  answer is the `StoreReply` parameter of `Receive`. The `inserted_id` is an
  opaque string.
- The console `print` of the rendered sentence after a verified insert
  (routes.py:142). It affects no response; `RenderEvent` is what it prints.
- The listing endpoints `index`, `get_latest_events` and `debug_events`.
  They are store queries, template rendering and `json.dumps` around
  `RenderEvent`; the sort and the limit belong to the store.
- Flask and serialisation: `request`, `Response`, `render_template`, the
  JSON text of responses, logging. Responses are a status code and a `Body`
  value.
- `Render.FormatUtc`: dateutil's `parse` and `astimezone(pytz.utc)` are the
  parameter `toUtc`. For a time without a zone the result depends on the
  host's local zone. `strftime` is modelled for the C locale. Years below
  1000 are written without zero padding, which differs between Python
  versions. Seconds are dropped, since the layout does not show them.
- `PyJson.Str`: `str()` of a float, list or dict is the parameter `repr`.
  Python's repr there depends on float printing, dict insertion order and
  string escaping.
- The text of an unexpected exception (the 500 `message`) is not modelled.
  The `Failure` body stands for `{status: "error", message: str(e)}`.
- JSON `NaN`/`Infinity` (accepted by Python's parser) are not values of
  `JFloat`. Python's limit on the digits of a parsed int is part of "the
  body does not parse".
- `Receiver.KeyErrorText`: written for keys without quotes, backslashes or
  unprintable characters. That covers every key the handler looks up.
