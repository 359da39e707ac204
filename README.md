# MCP server over Express: session routing and note store, in Dafny

This project models the core of `src/server.ts`, an MCP server behind an Express `/mcp`
endpoint, and proves properties of the model. The core has two parts.

- **Session table and routing** (`sessions.dfy`, module `Sessions`). The `transports` record
  maps session ids to streamable HTTP transports. Its own entries are the `transports` field of
  class `SessionRouter`, and a transport is a `Transport` object. The record is a plain object,
  so reading it under a name such as `constructor` or `toString` yields a truthy property
  inherited from `Object.prototype`; those names are `ObjectPrototypeKeys`. Its `sessionId` field is `None`
  until the SDK initializes the session.
  - `Post` reuses the transport stored under a non-empty known `mcp-session-id` header. When the
    header names an inherited property instead, it skips building a transport and throws on
    calling `handleRequest`. Otherwise it builds a new transport whose id generator captures
    the header.
  - `Initialize` stands for the SDK running that generator (`sessionId ?? randomUUID()`) and
    firing `onsessioninitialized`, which stores the transport under the generated id.
  - `Close` stands for the `onclose` hook. It deletes the entry under the transport's id, but
    only when that id is truthy.
  - `Get` and `Delete` share `HandleSessionRequest`, whose outcome is `GuardOutcome`. It
    answers 400 "Invalid or missing session ID" for a missing or empty id, and for an id that
    is neither stored nor inherited. It throws for an inherited id. Otherwise it forwards the
    request to the stored transport.
  - A route's outcome is a `Response`: `Forwarded(t)` when the SDK's `handleRequest` on `t`
    takes over, `Rejected(status, body)`, or `Threw(error)` when the handler raises the
    TypeError "transport.handleRequest is not a function" before any answer is written.
- **Note store** (`notes.dfy`, module `Notes`). The `memoryStore` array is the `notes` field of
  class `NoteStore`. `CreateNote` appends and replies `Note saved: "<content>" (total: n)`.
  `ListNotes` replies either the fixed empty-store message or a header followed by the lines
  `k. note`. Both reply texts are functions (`SavedText`, `NotesText`). Each has a parser beside
  it, and round-trip lemmas show that a reply carries exactly the content and the count it
  reports.
- `text.dfy` (module `Text`) holds the decimal rendering of counts (`NatToString`, with its
  inverse `DigitsValue`) and `Array.prototype.join` (`Join`, with its inverse `Split`).
  `wrappers.dfy` holds `Option`.

A POST whose session id is unknown is not rejected. It builds a new transport that takes the
client's id as its session id, and the session exists once it is initialized.

Four behaviours of the code as written are stated as client methods of the router:
- `SessionLifecycle`: a session created without a header can be reached under its UUID, and a
  later POST and GET reach the very transport the first POST built. After it closes, GET
  treats the id as never issued.
- `OverlappingInitialization`: two POSTs with the same unknown id, both handled before either
  session is initialized, build two transports. The second initialization replaces the first
  in the table. When the first transport then closes, its hook deletes the shared id, and the
  second session can no longer be reached.
- `EmptyHeaderSession`: a header that is present but empty makes the new transport's id
  generator yield `""`. If the SDK then reports a session initialized under `""`, GET and
  DELETE reject that id, and the close hook never deletes it, because `""` is falsy.
- `InheritedKeyHeader`: POST and GET with the header `constructor` both throw instead of
  creating a session or answering 400.

## Model

| member | source | states |
|---|---|---|
| `Text.NatToString` | src/server.ts:50 | the rendering of a count is a non-empty digit string; it starts with '0' exactly when the count is 0, and has one digit exactly when the count is below 10 |
| `Text.NatToStringRoundTrip` | src/server.ts:50 | reading the rendered digits back gives the count |
| `Text.DigitsValueRoundTrip` | src/server.ts:73 | every canonical digit string is the rendering of the number it denotes, so rendering is a bijection onto canonical digit strings |
| `Text.NatToStringInjective` | src/server.ts:73 | different labels or totals render as different texts |
| `Text.Join` | src/server.ts:74 | `join`: no parts give the empty text; otherwise the text starts with the first part |
| `Text.JoinSnoc` | src/server.ts:74 | joining one more part appends the separator and that part to the previous join |
| `Text.SplitJoin` | src/server.ts:74 | splitting a `join("\n")` at line breaks gives back the parts, when no part holds a line break |
| `Notes.TrailingDigits` | src/server.ts:50 | the length of the longest all-digit suffix: it covers only digits and the character before it is not one, so the total at the end of a reply can be located |
| `Notes.SavedText` | src/server.ts:50 | the `create-note` reply reads back as exactly the saved content and the total, whatever characters the content holds |
| `Notes.LineRoundTrip` | src/server.ts:73 | a line built by the `map` callback, `${k}. ${note}`, gives back exactly its note once the label `k. ` is stripped |
| `Notes.NumberedLines` | src/server.ts:72-73 | one line per note, in order; line i is `${first + i}. ${note_i}` |
| `Notes.NumberedLinesSnoc` | src/server.ts:72-73 | numbering one more note adds one line at the end and keeps the earlier lines |
| `Notes.NotesText` | src/server.ts:65-77 | the reply is the empty-store message exactly when there are no notes; otherwise it starts with the `🗒 Notes:` header line |
| `Notes.NotesTextRoundTrip` | src/server.ts:65-77 | the listing reads back as exactly the stored notes, in insertion order, when no note holds a line break |
| `Notes.NotesTextAmbiguous` | src/server.ts:72-76 | a note holding a line break lists the same as two notes, so the listing alone cannot always tell the store apart |
| `Notes.NotesTextSnoc` | src/server.ts:72-76 | after one more note, the listing is the previous listing plus a line break and the line numbered with the new size |
| `Notes.NoteStore.constructor` | src/server.ts:11 | the store starts empty |
| `Notes.NoteStore.CreateNote` | src/server.ts:44-50 | appends the content after all earlier notes, and replies with the content and the new store length as the total |
| `Notes.NoteStore.ListNotes` | src/server.ts:65-77 | replies with the listing of the current notes and does not change the store |
| `Sessions.Transport.constructor` | src/server.ts:89-92 | a new transport remembers the request's header for its id generator and has no session id yet |
| `Sessions.SessionRouter.constructor` | src/server.ts:80 | the session table starts empty |
| `Sessions.SessionRouter.Post` | src/server.ts:82-102 | a non-empty header stored in the table forwards to exactly the stored transport; one naming an inherited property throws; any other header forwards to a new transport that captures it; the table does not change |
| `Sessions.SessionRouter.HandleSessionRequest` | src/server.ts:105-117 | its outcome is `GuardOutcome`: 400 "Invalid or missing session ID" exactly when the id is missing, empty, or neither stored nor inherited; a throw exactly when it is inherited and not stored; otherwise forwarding to the transport stored under it; the table never changes |
| `Sessions.GuardOutcomeUnique` | src/server.ts:109-116 | the guard's outcome is fixed by the table and the header alone |
| `Sessions.SessionRouter.Get` | src/server.ts:118 | GET is routed by the shared guard: the same rejection, throw and forwarding, no table change |
| `Sessions.SessionRouter.Delete` | src/server.ts:121 | DELETE is routed by the same guard as GET |
| `Sessions.GeneratedId` | src/server.ts:90 | `??` tests for absence, not falsiness: a header that is present is the id even when empty; only an absent header gives the UUID |
| `Sessions.SessionRouter.Initialize` | src/server.ts:89-91 | the transport's id becomes the captured header if there was one (even empty), else the fresh id; the table gains that key mapped to this transport and every other entry is kept; the table grows by one when the key is new |
| `Sessions.SessionRouter.Close` | src/server.ts:94-96 | removes only the entry under the transport's own id, and only when that id is present and non-empty; removing an absent key changes nothing |
| `Sessions.OpenThenClose` | src/server.ts:91-96 | initializing under a new non-empty id and then closing that transport restores the table |
| `Sessions.OneIdPerTransport` | src/server.ts:91 | while every stored transport carries the id it is stored under, no transport is stored under two ids |
| `Sessions.SessionLifecycle` | src/server.ts:82-121 | the transport a headerless POST built is the one a later POST and a GET reach under its fresh id; after it closes, GET rejects the id |
| `Sessions.OverlappingInitialization` | src/server.ts:85-96 | two distinct transports built for one unknown id are both initialized under it; GET then reaches the second; after the first (replaced) one closes, GET rejects the id although the second is still open |
| `Sessions.EmptyHeaderSession` | src/server.ts:85-96 | if the SDK reports a session initialized under the `""` an empty header yields, GET rejects it and it stays in the table after its transport closes |
| `Sessions.InheritedKeyHeader` | src/server.ts:85-116 | a header naming an inherited property makes both POST and GET throw, on an empty table |

## Left out

- The `add` tool (src/server.ts:18-32): it adds JavaScript floating-point numbers and formats the result as a number.
- Express setup, JSON body parsing, CORS and `app.listen` (src/server.ts:8-9, 122-132): HTTP and process plumbing.
- `McpServer`, `server.connect` and the transport's `handleRequest` (src/server.ts:13-16, 98, 101, 116): this SDK code is not part of this model. A route ends in `Forwarded(t)`. Tool dispatch, protocol errors and the SDK's rule on which requests initialize a session all live there.
- Sessions.SessionRouter.Initialize: an id of `__proto__` is stored as an ordinary entry, while in JavaScript that assignment replaces the record's prototype. No POST builds a transport with that header, since the header already reads as truthy, and randomUUID never yields it.
- Sessions.SessionRouter.Initialize: the model lets its caller decide when the SDK initializes a session. Whether the SDK fires the callback for an empty id is not modelled.
- Sessions.SessionRouter.Delete: the SDK's teardown that makes the transport close after a DELETE is not modelled. A caller invokes Close, as `SessionLifecycle` does.
- `randomUUID` (src/server.ts:90): a parameter of Initialize. The model assumes it is not already a key in the table, and does not model randomness.
- Concurrency: each route, each initialization and each close is one atomic step. Interleavings between those steps, as in `OverlappingInitialization`, are modelled.
- The zod input schemas (src/server.ts:24-27, 41): library validation with no visible logic.
- Tool results: the `{ content: [{ type: "text", text }] }` wrapper is reduced to its one text.
- Sessions.SessionRouter.Post: after a `Threw` outcome, what Express and Node do with the rejected promise (an error response, or an unhandled rejection) is not modelled.
- Notes.SavedText: strings are sequences of Unicode scalar values, whereas JavaScript strings are UTF-16 code units. Note contents are taken to be well-formed Unicode, so a content holding a lone surrogate is not modelled.
- Text.NatToString: counts are unbounded integers. JavaScript's exponent notation at 10^21 and above is not modelled.
- Notes.NotesTextRoundTrip: holds only for notes without line breaks. `NotesTextAmbiguous` shows why.
- All of src/client.ts: an interactive prompt loop, SDK client calls and `Number()` parsing of user input.
