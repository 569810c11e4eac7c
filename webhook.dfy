/**
 * What the two receivers do with one webhook request once its body has been
 * read and decoded: build the record (collector, generic or unparsed), fall
 * back to the peer's address for `srcIP`, and append it to the store. Also
 * the listen address rule and the newest-first plain-text listing.
 */
module Webhook {
  import opened Wrappers
  import opened GoText
  import opened Records
  import opened Payload
  import opened Generic
  import opened Collector
  import opened Store

  /** The port used when PORT is blank. */
  const DefaultPort := "5123"

  /**
   * `resolveAddr`, given the PORT variable: the trimmed value, defaulting to
   * 5123, returned as is when it has a colon and with ":" in front otherwise.
   * The address always has a colon and never has white space at either end.
   */
  function ResolveAddr(port: string): (r: string)
    ensures Contains(r, ":")
    ensures r != "" && !IsSpace(r[0]) && !IsSpace(r[|r| - 1])
    ensures TrimSpace(port) == "" ==> r == ":" + DefaultPort
    ensures TrimSpace(port) != "" && Contains(TrimSpace(port), ":") ==> r == TrimSpace(port)
    ensures TrimSpace(port) != "" && !Contains(TrimSpace(port), ":") ==> r == ":" + TrimSpace(port)
  {
    var val := TrimSpace(port);
    var v := if val == "" then DefaultPort else val;
    if Contains(v, ":") then v
    else
      assert OccursAt(":" + v, ":", 0);
      ":" + v
  }

  /** A resolved address resolves to itself. */
  lemma ResolveAddrIdempotent(port: string)
    ensures ResolveAddr(ResolveAddr(port)) == ResolveAddr(port)
  {
    var r := ResolveAddr(port);
    TrimmedIsFixed(r);
    assert TrimSpace(r) == r && Contains(r, ":");
  }

  /** `orDash`: a blank value shows as "-", any other value as itself. */
  function OrDash(s: string): (r: string)
    ensures TrimSpace(r) != ""
    ensures TrimSpace(s) != "" ==> r == s
    ensures TrimSpace(s) == "" ==> r == "-"
  {
    if TrimSpace(s) == "" then
      TrimmedIsFixed("-");
      "-"
    else s
  }

  /** Dashing a value twice is dashing it once. */
  lemma OrDashIdempotent(s: string)
    ensures OrDash(OrDash(s)) == OrDash(s)
  {
  }

  /** The outcome of the generic decoder: the payload and the JSON text it came from, or why it failed. */
  datatype PayloadDecode = Parsed(payload: Object, rawJSON: string) | Unparseable(msg: string)

  /** The record of a recognised collector payload; `raw` keeps the whole body. */
  function CollectorRecord(c: CollectorAlert, severity: string, body: string): Alert {
    EmptyAlert.(title := CollectorTitle(c), host := c.host, alertType := c.alert, severity := severity,
                exe := c.exe, comm := c.comm, uid := c.uid, euid := c.euid, auid := c.auid,
                pid := c.pid, ppid := c.ppid, tty := c.tty, key := c.key, audit := c.audit,
                text := c.text, rawEv := c.raw, source := c.exe, raw := body)
  }

  /** The record of a body nothing could decode: tagged "unparsed", with the body as text. */
  function UnparsedRecord(body: string): Alert {
    EmptyAlert.(alertType := Unparsed, rawText := body)
  }

  /**
   * The `srcIP` fallback: a record without a source address takes the
   * peer's host, when the peer address splits into host and port.
   */
  function WithPeerHost(a: Alert, peerHost: Option<string>): (r: Alert)
    ensures r == a.(srcIP := r.srcIP)
    ensures a.srcIP != "" ==> r.srcIP == a.srcIP
    ensures a.srcIP == "" && peerHost.Some? ==> r.srcIP == peerHost.value
    ensures a.srcIP == "" && peerHost.None? ==> r.srcIP == ""
  {
    if a.srcIP == "" && peerHost.Some? then a.(srcIP := peerHost.value) else a
  }

  /**
   * The record the audit receiver builds from a body it has read, given what
   * decoding that body as a collector payload and as a generic payload gave,
   * and the peer's host. A recognised collector payload wins; otherwise the
   * generic extraction; otherwise an "unparsed" record and the decode error.
   * Only collector records have a severity, and no record holds both the
   * decoded JSON and the undecodable text.
   */
  method BuildAuditAlert(body: string, collector: Decoded<CollectorAlert>, generic: PayloadDecode,
                         peerHost: Option<string>) returns (a: Alert, parseErr: Option<string>)
    ensures TryDecodeCollector(collector).ok ==>
              parseErr == None
              && a == WithPeerHost(CollectorRecord(collector.value, Severity(collector.value), body), peerHost)
    ensures !TryDecodeCollector(collector).ok && generic.Unparseable? ==>
              parseErr == Some(generic.msg) && a == WithPeerHost(UnparsedRecord(body), peerHost)
    ensures !TryDecodeCollector(collector).ok && generic.Parsed? ==>
              parseErr == None
              && exists g :: IsExtraction(generic.payload, generic.rawJSON, g) && a == WithPeerHost(g, peerHost)
    ensures a.severity != "" <==> TryDecodeCollector(collector).ok
    ensures a.raw == "" || a.rawText == ""
    ensures a.id == 0
  {
    var recognition := TryDecodeCollector(collector);
    if recognition.err.None? && recognition.ok {
      var severity := SeverityFromCollector(recognition.alert);
      a := CollectorRecord(recognition.alert, severity, body);
      parseErr := None;
    } else {
      match generic {
        case Unparseable(msg) =>
          a := UnparsedRecord(body);
          parseErr := Some(msg);
        case Parsed(payload, rawJSON) =>
          a := ExtractAlert(payload, rawJSON);
          parseErr := None;
      }
    }
    a := WithPeerHost(a, peerHost);
  }

  /** The error the Go receiver reports when the body cannot be read. */
  const ReadFailure := "failed to read body"

  /**
   * The record the Go receiver builds: the body (None when reading it
   * failed), what decoding it gave, and the peer's host. A read failure is
   * stored as an "unparsed" record with no text; a decode failure as an
   * "unparsed" record holding the body; anything else is the generic
   * extraction. There is no severity or title in this receiver.
   */
  method BuildGoAlert(body: Option<string>, generic: PayloadDecode, peerHost: Option<string>)
    returns (a: Alert, parseErr: Option<string>)
    ensures body.None? ==> parseErr == Some(ReadFailure) && a == WithPeerHost(UnparsedRecord(""), peerHost)
    ensures body.Some? && generic.Unparseable? ==>
              parseErr == Some(generic.msg) && a == WithPeerHost(UnparsedRecord(body.value), peerHost)
    ensures body.Some? && generic.Parsed? ==>
              parseErr == None
              && exists g :: IsExtraction(generic.payload, generic.rawJSON, g) && a == WithPeerHost(g, peerHost)
    ensures parseErr.Some? ==> a.alertType == Unparsed && a.raw == ""
    ensures parseErr.None? ==> body.Some? && generic.Parsed? && a.raw == generic.rawJSON && a.rawText == ""
    ensures a.severity == "" && a.title == "" && a.id == 0
  {
    if body.None? {
      a := UnparsedRecord("");
      parseErr := Some(ReadFailure);
    } else {
      match generic {
        case Unparseable(msg) =>
          a := UnparsedRecord(body.value);
          parseErr := Some(msg);
        case Parsed(payload, rawJSON) =>
          a := ExtractAlert(payload, rawJSON);
          parseErr := None;
      }
    }
    a := WithPeerHost(a, peerHost);
  }

  /**
   * The audit receiver's webhook: a body that cannot be read is answered
   * with 400 and stores nothing; otherwise the record is appended, the
   * store is saved (`saved` says whether that write succeeds) and the
   * answer is 200 with the new id.
   */
  method AuditWebhook(store: AlertStore, body: Option<string>, collector: Decoded<CollectorAlert>,
                      generic: PayloadDecode, peerHost: Option<string>, saved: bool)
    returns (status: int, id: int, stored: Alert, parseErr: Option<string>, writes: seq<Write>)
    requires store.Valid()
    modifies store
    ensures store.Valid()
    ensures body.None? ==> status == 400 && writes == [] && store.State() == old(store.State())
    ensures body.Some? ==> status == 200 && id == old(store.nextID)
    ensures body.Some? ==> store.State() == Appended(old(store.State()), store.maxStore, stored)
    ensures body.Some? ==> writes == (if saved then [Write(store.dataFile, store.State())] else [])
    ensures store.dataFile == old(store.dataFile)
    ensures body.Some? && TryDecodeCollector(collector).ok ==>
              parseErr == None
              && stored == WithPeerHost(CollectorRecord(collector.value, Severity(collector.value), body.value), peerHost)
    ensures body.Some? && !TryDecodeCollector(collector).ok && generic.Unparseable? ==>
              parseErr == Some(generic.msg) && stored == WithPeerHost(UnparsedRecord(body.value), peerHost)
    ensures body.Some? && !TryDecodeCollector(collector).ok && generic.Parsed? ==>
              parseErr == None
              && exists g :: IsExtraction(generic.payload, generic.rawJSON, g) && stored == WithPeerHost(g, peerHost)
  {
    if body.None? {
      return 400, 0, EmptyAlert, None, [];
    }
    stored, parseErr := BuildAuditAlert(body.value, collector, generic, peerHost);
    id := store.Append(stored);
    var w := store.Save();
    writes := if saved then [w] else [];
    status := 200;
  }

  /** The Go receiver's webhook: every request stores a record and is answered with 201. */
  method GoWebhook(store: AlertStore, body: Option<string>, generic: PayloadDecode, peerHost: Option<string>)
    returns (status: int, id: int, stored: Alert, parseErr: Option<string>)
    requires store.Valid()
    modifies store
    ensures store.Valid()
    ensures status == 201 && id == old(store.nextID)
    ensures store.State() == Appended(old(store.State()), store.maxStore, stored)
    ensures store.dataFile == old(store.dataFile)
    ensures body.None? ==> parseErr == Some(ReadFailure) && stored == WithPeerHost(UnparsedRecord(""), peerHost)
    ensures body.Some? && generic.Unparseable? ==>
              parseErr == Some(generic.msg) && stored == WithPeerHost(UnparsedRecord(body.value), peerHost)
    ensures body.Some? && generic.Parsed? ==>
              parseErr == None
              && exists g :: IsExtraction(generic.payload, generic.rawJSON, g) && stored == WithPeerHost(g, peerHost)
  {
    stored, parseErr := BuildGoAlert(body, generic, peerHost);
    id := store.Append(stored);
    status := 201;
  }

  /** Shown when a record has no text but does hold JSON. */
  const RawAvailable := "(raw json available)"

  /**
   * The message of a listing line: the trimmed `text`, else the trimmed
   * `rawText`, else a note that JSON is available, else nothing.
   */
  function Message(a: Alert): (r: string)
    ensures TrimSpace(a.text) != "" ==> r == TrimSpace(a.text)
    ensures TrimSpace(a.text) == "" && TrimSpace(a.rawText) != "" ==> r == TrimSpace(a.rawText)
    ensures TrimSpace(a.text) == "" && TrimSpace(a.rawText) == "" && a.raw != "" ==> r == RawAvailable
    ensures r == "" <==> TrimSpace(a.text) == "" && TrimSpace(a.rawText) == "" && a.raw == ""
  {
    if TrimSpace(a.text) != "" then TrimSpace(a.text)
    else if TrimSpace(a.rawText) != "" then TrimSpace(a.rawText)
    else if |a.raw| > 0 then RawAvailable
    else ""
  }

  /** ` name=value`, or nothing for an empty value. */
  function Field(name: string, value: string): string {
    if value != "" then " " + name + "=" + value else ""
  }

  /** The tags and host that open a listing line. */
  function LineHead(a: Alert): string {
    " [SEV=" + OrDash(a.severity) + "][ALERT=" + OrDash(a.alertType) + "] host=" + OrDash(a.host)
  }

  /** The collector fields of a listing line, each only when set. */
  function LineFields(a: Alert): string {
    Field("exe", a.exe) + Field("auid", a.auid) + Field("euid", a.euid) + Field("tty", a.tty)
    + Field("audit", a.audit) + Field("pid", a.pid)
  }

  /** One line of the listing, without its leading time stamp. */
  function Line(a: Alert): string {
    LineHead(a) + LineFields(a) + (if Message(a) != "" then " " + Message(a) else "") + "\n"
  }

  /** The window in listing order, newest alert first. */
  function NewestFirst<T>(xs: seq<T>): (r: seq<T>)
    ensures |r| == |xs|
    ensures forall k :: 0 <= k < |r| ==> r[k] == xs[|xs| - 1 - k]
  {
    if xs == [] then []
    else [xs[|xs| - 1]] + NewestFirst(xs[..|xs| - 1])
  }

  /** `getAlertsText`'s loop: walks the window from its end, rendering each alert with `render`. */
  method WalkNewestFirst(alerts: seq<Alert>, render: Alert -> string) returns (lines: seq<string>)
    ensures |lines| == |alerts|
    ensures forall k :: 0 <= k < |alerts| ==> lines[k] == render(NewestFirst(alerts)[k])
  {
    lines := [];
    var i := |alerts| - 1;
    while i >= 0
      invariant -1 <= i < |alerts|
      invariant |lines| == |alerts| - 1 - i
      invariant forall k :: 0 <= k < |lines| ==> lines[k] == render(alerts[|alerts| - 1 - k])
    {
      lines := lines + [render(alerts[i])];
      i := i - 1;
    }
  }

  /** `getAlertsText`: one line per stored alert, newest first. */
  method AlertsText(alerts: seq<Alert>) returns (lines: seq<string>)
    ensures |lines| == |alerts|
    ensures forall k :: 0 <= k < |alerts| ==> lines[k] == Line(NewestFirst(alerts)[k])
  {
    lines := WalkNewestFirst(alerts, Line);
  }

  /** Dropping the oldest alert drops the last entry of the listing order. */
  lemma {:induction false} NewestFirstDropOldest<T>(xs: seq<T>)
    requires xs != []
    ensures NewestFirst(xs[1..]) == NewestFirst(xs)[..|xs| - 1]
  {
    var n := |xs|;
    var a, b := NewestFirst(xs[1..]), NewestFirst(xs)[..n - 1];
    forall k | 0 <= k < n - 1
      ensures a[k] == b[k]
    {
      assert a[k] == xs[1..][n - 2 - k] == xs[n - 1 - k];
      assert b[k] == NewestFirst(xs)[k];
    }
  }

  /**
   * Right after an append the listing opens with the record just stored,
   * followed by the earlier ones in the same order, less the evicted oldest
   * one when the window was full.
   */
  lemma NewestFirstAfterAppend(s: Snapshot, cap: Capacity, rec: Alert)
    ensures |s.alerts| < cap ==>
              NewestFirst(Appended(s, cap, rec).alerts) == [rec.(id := s.nextID)] + NewestFirst(s.alerts)
    ensures |s.alerts| >= cap ==>
              NewestFirst(Appended(s, cap, rec).alerts)
              == [rec.(id := s.nextID)] + NewestFirst(s.alerts)[..|s.alerts| - 1]
  {
    var r := Appended(s, cap, rec).alerts;
    assert NewestFirst(r) == [r[|r| - 1]] + NewestFirst(r[..|r| - 1]);
    if |s.alerts| >= cap {
      NewestFirstDropOldest(s.alerts);
    }
  }
}
