/**
 * The session table of the `/mcp` endpoint and the routing of POST, GET and DELETE requests.
 *
 * The table is a plain JavaScript object mapping session ids to transports. Reading it under
 * an id yields the transport stored there, or else a property every object inherits from
 * `Object.prototype` (such as `constructor`), which is truthy too. POST reuses what it reads
 * under the request's `mcp-session-id` header, or builds a new transport whose id generator
 * yields that header (or a fresh UUID when there is none). A transport enters the table only
 * when the SDK reports its session initialized, and leaves it when its close hook runs. GET
 * and DELETE share one guard that rejects a missing, empty or unknown id with a 400. When
 * either route reads an inherited property instead of a transport, the handler throws.
 *
 * What the SDK does with a forwarded request is not modelled: a route's outcome is the
 * transport the request is forwarded to. The SDK's two callbacks into the router become the
 * methods Initialize and Close, which a caller invokes when the SDK would.
 */
module Sessions {
  import opened Wrappers

  const BadRequest: nat := 400
  const InvalidSessionMessage: string := "Invalid or missing session ID"
  /** The TypeError a route raises when what it read from the table has no `handleRequest`. */
  const NotAFunction: string := "transport.handleRequest is not a function"

  /** The properties every plain object inherits from `Object.prototype`; all of them are truthy. */
  const ObjectPrototypeKeys: set<string> := {
    "constructor", "__proto__", "toString", "toLocaleString", "valueOf", "hasOwnProperty",
    "isPrototypeOf", "propertyIsEnumerable", "__defineGetter__", "__defineSetter__",
    "__lookupGetter__", "__lookupSetter__"
  }

  /** A streamable HTTP server transport as the router sees it. */
  class Transport {
    /** The `mcp-session-id` header of the request that built it, captured by its id generator. */
    const idHint: Option<string>
    /** The id the SDK assigned when the session was initialized; None before that. */
    var sessionId: Option<string>

    constructor (hint: Option<string>)
      ensures idHint == hint && sessionId == None
    {
      idHint := hint;
      sessionId := None;
    }
  }

  /** JavaScript truthiness of an optional string: present and non-empty. */
  predicate Truthy(s: Option<string>) {
    s.Some? && s.value != ""
  }

  /** Reading the table under `key` finds no stored transport but an inherited, truthy property. */
  predicate Inherited(transports: map<string, Transport>, key: string) {
    key !in transports && key in ObjectPrototypeKeys
  }

  /** `sessionId ?? randomUUID()`: the header when present, even when empty; otherwise the UUID. */
  function GeneratedId(hint: Option<string>, uuid: string): (id: string)
    ensures hint.Some? ==> id == hint.value
    ensures hint.None? ==> id == uuid
  {
    if hint.Some? then hint.value else uuid
  }

  /**
   * What a route does with a request: hands it to a transport, answers it with an error, or
   * throws before any answer is written.
   */
  datatype Response = Forwarded(transport: Transport) | Rejected(status: nat, body: string) | Threw(error: string)

  /**
   * The outcome of the guard GET and DELETE share: a missing, empty or unknown id is rejected
   * with a 400; an id naming an inherited property makes the handler throw; an id with a stored
   * transport is forwarded to exactly that transport.
   */
  predicate GuardOutcome(transports: map<string, Transport>, header: Option<string>, r: Response) {
    && (r.Rejected? <==> !Truthy(header) || (header.value !in transports && header.value !in ObjectPrototypeKeys))
    && (r.Rejected? ==> r == Rejected(BadRequest, InvalidSessionMessage))
    && (r.Threw? <==> Truthy(header) && Inherited(transports, header.value))
    && (r.Threw? ==> r == Threw(NotAFunction))
    && (r.Forwarded? ==> Truthy(header) && header.value in transports && r.transport == transports[header.value])
  }

  /** The guard's outcome is determined by the table and the header alone. */
  lemma GuardOutcomeUnique(transports: map<string, Transport>, header: Option<string>, r1: Response, r2: Response)
    requires GuardOutcome(transports, header, r1) && GuardOutcome(transports, header, r2)
    ensures r1 == r2
  {
  }

  /** The process-wide `transports` record and the three `/mcp` routes. */
  class SessionRouter {
    /** The record's own entries; inherited properties are ObjectPrototypeKeys. */
    var transports: map<string, Transport>

    /** Every stored transport was initialized with the id it is stored under. */
    ghost predicate Valid()
      reads this, transports.Values
    {
      forall id | id in transports :: transports[id].sessionId == Some(id)
    }

    constructor ()
      ensures Valid() && transports == map[]
    {
      transports := map[];
    }

    /**
     * POST /mcp: forwards to the transport stored under a non-empty known header, and throws
     * when the header names an inherited property instead; otherwise forwards to a new
     * transport that captures the header (an unknown id is not rejected). The table itself is
     * left as it is: it changes only when the SDK calls back.
     */
    method Post(header: Option<string>) returns (r: Response)
      ensures Truthy(header) && header.value in transports ==> r == Forwarded(transports[header.value])
      ensures Truthy(header) && Inherited(transports, header.value) ==> r == Threw(NotAFunction)
      ensures !Truthy(header) || (header.value !in transports && header.value !in ObjectPrototypeKeys) ==>
        r.Forwarded? && fresh(r.transport) && r.transport.idHint == header && r.transport.sessionId == None
    {
      if header.Some? && header.value != "" && header.value in transports {
        r := Forwarded(transports[header.value]);
      } else if header.Some? && header.value != "" && header.value in ObjectPrototypeKeys {
        r := Threw(NotAFunction);
      } else {
        var t := new Transport(header);
        r := Forwarded(t);
      }
    }

    /** The guard GET and DELETE share. */
    method HandleSessionRequest(header: Option<string>) returns (r: Response)
      ensures GuardOutcome(transports, header, r)
    {
      if header.None? || header.value == "" || (header.value !in transports && header.value !in ObjectPrototypeKeys) {
        r := Rejected(BadRequest, InvalidSessionMessage);
        return;
      }
      if header.value !in transports {
        r := Threw(NotAFunction);
        return;
      }
      r := Forwarded(transports[header.value]);
    }

    /** GET /mcp. */
    method Get(header: Option<string>) returns (r: Response)
      ensures GuardOutcome(transports, header, r)
    {
      r := HandleSessionRequest(header);
    }

    /** DELETE /mcp: routed like GET; the SDK's teardown then reaches Close. */
    method Delete(header: Option<string>) returns (r: Response)
      ensures GuardOutcome(transports, header, r)
    {
      r := HandleSessionRequest(header);
    }

    /**
     * The SDK initializes `t`'s session: it takes the id from t's generator and the
     * `onsessioninitialized` callback stores `t` under it, replacing any transport stored there.
     * `uuid` stands for the value randomUUID would return; it is assumed unused.
     */
    method Initialize(t: Transport, uuid: string)
      requires Valid()
      requires t.sessionId == None
      requires t.idHint == None ==> uuid !in transports
      modifies this, t
      ensures Valid()
      ensures t.sessionId == Some(GeneratedId(t.idHint, uuid))
      ensures transports == old(transports)[GeneratedId(t.idHint, uuid) := t]
      ensures GeneratedId(t.idHint, uuid) !in old(transports) ==> |transports| == |old(transports)| + 1
    {
      var id := if t.idHint.Some? then t.idHint.value else uuid;
      forall k | k in transports ensures transports[k] != t {
        assert transports[k].sessionId == Some(k);
      }
      t.sessionId := Some(id);
      transports := transports[id := t];
    }

    /** `t.onclose`: deletes the entry under t's id when that id is truthy, whichever transport it now holds. */
    method Close(t: Transport)
      requires Valid()
      modifies this
      ensures Valid()
      ensures Truthy(t.sessionId) ==> transports == old(transports) - {t.sessionId.value}
      ensures !Truthy(t.sessionId) ==> transports == old(transports)
    {
      if t.sessionId.Some? && t.sessionId.value != "" {
        transports := transports - {t.sessionId.value};
      }
    }
  }

  /** Initializing a session under a new non-empty id and then closing its transport leaves the table as it was. */
  method OpenThenClose(router: SessionRouter, t: Transport, uuid: string)
    requires router.Valid() && t.sessionId == None
    requires t.idHint == None ==> uuid !in router.transports
    requires GeneratedId(t.idHint, uuid) != "" && GeneratedId(t.idHint, uuid) !in router.transports
    modifies router, t
    ensures router.Valid() && router.transports == old(router.transports)
  {
    router.Initialize(t, uuid);
    router.Close(t);
  }

  /** A stored transport is stored under one id only. */
  lemma OneIdPerTransport(router: SessionRouter, a: string, b: string)
    requires router.Valid()
    requires a in router.transports && b in router.transports && a != b
    ensures router.transports[a] != router.transports[b]
  {
  }

  /**
   * A session created without a header is reachable under its UUID: a later POST and a GET
   * both reach the very transport the first POST built. After that transport closes, GET
   * rejects the id as if it had never been issued. A UUID never names an inherited property.
   */
  method SessionLifecycle(uuid: string) returns (created: Transport, reused: Response, before: Response, after: Response)
    requires uuid != "" && uuid !in ObjectPrototypeKeys
    ensures reused == Forwarded(created) && before == Forwarded(created)
    ensures created.sessionId == Some(uuid)
    ensures after == Rejected(BadRequest, InvalidSessionMessage)
  {
    var router := new SessionRouter();
    var first := router.Post(None);
    created := first.transport;
    router.Initialize(created, uuid);
    reused := router.Post(Some(uuid));
    before := router.Get(Some(uuid));
    var ended := router.Delete(Some(uuid));
    router.Close(ended.transport);
    after := router.Get(Some(uuid));
  }

  /**
   * Two POSTs carrying the same unknown id before either is initialized build two transports;
   * the second initialization replaces the first in the table, and closing the first then
   * deletes the id, so the second, still open, can no longer be reached.
   */
  method OverlappingInitialization(id: string, u1: string, u2: string)
      returns (replaced: Transport, orphan: Transport, before: Response, after: Response)
    requires id != "" && id !in ObjectPrototypeKeys
    ensures replaced != orphan
    ensures replaced.sessionId == Some(id) && orphan.sessionId == Some(id)
    ensures before == Forwarded(orphan)
    ensures after == Rejected(BadRequest, InvalidSessionMessage)
  {
    var router := new SessionRouter();
    var r1 := router.Post(Some(id));
    var r2 := router.Post(Some(id));
    replaced, orphan := r1.transport, r2.transport;
    router.Initialize(replaced, u1);
    router.Initialize(orphan, u2);
    before := router.Get(Some(id));
    router.Close(replaced);
    after := router.Get(Some(id));
  }

  /**
   * A POST whose header is present but empty builds a transport whose id would be "" (the `??`
   * keeps it). If the SDK then reports that session initialized, it is stored under "", GET
   * rejects "", and its close hook leaves the entry in place, since "" is falsy.
   */
  method EmptyHeaderSession(uuid: string) returns (r: Response, kept: bool)
    ensures r == Rejected(BadRequest, InvalidSessionMessage)
    ensures kept
  {
    var router := new SessionRouter();
    var created := router.Post(Some(""));
    router.Initialize(created.transport, uuid);
    r := router.Get(Some(""));
    router.Close(created.transport);
    kept := "" in router.transports;
  }

  /**
   * On a fresh table, a header naming an inherited property gets past both checks: POST
   * skips building a transport and GET skips the 400, and both then throw.
   */
  method InheritedKeyHeader() returns (posted: Response, got: Response)
    ensures posted == Threw(NotAFunction) && got == Threw(NotAFunction)
  {
    var router := new SessionRouter();
    posted := router.Post(Some("constructor"));
    got := router.Get(Some("constructor"));
  }
}
