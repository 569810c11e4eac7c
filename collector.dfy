/**
 * The audit collector's payload: recognising it, rating its severity and
 * building a one-line human title for it.
 */
module Collector {
  import opened Wrappers
  import opened GoText
  import opened Records

  /** The outcome of decoding a body into the collector's field set. */
  datatype Decoded<T> = Decoded(value: T) | DecodeFailed(err: string)

  /** What `tryDecodeCollector` returns: the payload, whether it matched, and the decode error. */
  datatype Recognition = Recognition(alert: CollectorAlert, ok: bool, err: Option<string>)

  /**
   * `tryDecodeCollector`: a decoded payload is a collector alert only when its
   * `alert` field is not blank. A blank tag is not an error; it just means
   * "try the generic schema". Whenever there is no match the payload handed
   * back is the zero value.
   */
  function TryDecodeCollector(d: Decoded<CollectorAlert>): (r: Recognition)
    ensures r.ok <==> d.Decoded? && TrimSpace(d.value.alert) != ""
    ensures r.ok ==> r.alert == d.value
    ensures !r.ok ==> r.alert == ZeroCollector
    ensures r.err.Some? <==> d.DecodeFailed?
    ensures d.DecodeFailed? ==> r.err == Some(d.err)
  {
    match d
    case DecodeFailed(e) => Recognition(ZeroCollector, false, Some(e))
    case Decoded(a) =>
      if TrimSpace(a.alert) == "" then Recognition(ZeroCollector, false, None)
      else Recognition(a, true, None)
  }

  /** Executable locations that make an execution LOW. */
  const AllowedPrefixes: seq<string> := ["/usr/bin/", "/bin/", "/usr/sbin/", "/sbin/"]

  /** `s` starts with one of `prefixes`. */
  predicate HasAnyPrefix(s: string, prefixes: seq<string>) {
    exists i :: 0 <= i < |prefixes| && prefixes[i] <= s
  }

  /** The executable lives in a scratch directory: /tmp/, /dev/shm/ or /var/tmp/. */
  predicate InScratchDir(exe: string) {
    "/tmp/" <= exe || "/dev/shm/" <= exe || "/var/tmp/" <= exe
  }

  /** The effective uid is root and the executable lives in a scratch directory. */
  predicate RootFromScratch(a: CollectorAlert) {
    TrimSpace(a.euid) == "0" && InScratchDir(TrimSpace(a.exe))
  }

  /**
   * The severity rule, stated declaratively: HIGH for a root execution from a
   * scratch directory; otherwise LOW when the executable is unknown or lives
   * in a system binary directory; MED for everything else.
   */
  function Severity(a: CollectorAlert): (r: string)
    ensures r == "HIGH" || r == "MED" || r == "LOW"
    ensures r == "HIGH" <==> RootFromScratch(a)
    ensures r == "LOW" <==>
              !RootFromScratch(a)
              && (TrimSpace(a.exe) == "" || HasAnyPrefix(TrimSpace(a.exe), AllowedPrefixes))
  {
    var exe := TrimSpace(a.exe);
    if RootFromScratch(a) then "HIGH"
    else if exe != "" && !HasAnyPrefix(exe, AllowedPrefixes) then "MED"
    else "LOW"
  }

  /** The allow-list walk inside `severityFromCollector`, with its early return. */
  method StartsWithAllowedPrefix(exe: string) returns (found: bool)
    ensures found <==> HasAnyPrefix(exe, AllowedPrefixes)
  {
    var i := 0;
    while i < |AllowedPrefixes|
      invariant 0 <= i <= |AllowedPrefixes|
      invariant forall k :: 0 <= k < i ==> !(AllowedPrefixes[k] <= exe)
    {
      if AllowedPrefixes[i] <= exe {
        return true;
      }
      i := i + 1;
    }
    return false;
  }

  /**
   * `severityFromCollector`: the root check first, then the allow-list walk,
   * each returning as soon as it decides.
   */
  method SeverityFromCollector(a: CollectorAlert) returns (r: string)
    ensures r == Severity(a)
  {
    var exe := TrimSpace(a.exe);
    var euid := TrimSpace(a.euid);
    if euid == "0" {
      if InScratchDir(exe) {
        return "HIGH";
      }
    }
    if exe != "" {
      var allowed := StartsWithAllowedPrefix(exe);
      if allowed {
        return "LOW";
      }
      return "MED";
    }
    return "LOW";
  }

  /** The text of `t` from `start` up to the next double quote, or "" when none follows. */
  function UpToQuote(t: string, start: nat): (r: string)
    requires start <= |t|
    ensures '"' !in r
    ensures r != "" ==> start + |r| < |t| && t[start..start + |r|] == r && t[start + |r|] == '"'
  {
    var j := IndexByte(t[start..], '"');
    if j < 0 then ""
    else
      assert forall k :: 0 <= k < j ==> t[start..start + j][k] == t[start..][k];
      t[start..start + j]
  }

  /** When a quote follows `start` with quote-free text before it, that text is what `UpToQuote` gives. */
  lemma UpToQuoteFinds(t: string, start: nat, n: nat)
    requires start + n < |t| && t[start + n] == '"' && '"' !in t[start..start + n]
    ensures UpToQuote(t, start) == t[start..start + n]
  {
    var j := IndexByte(t[start..], '"');
    assert t[start..][n] == '"';
  }

  /** The pattern `key="` that `extractQuotedKV` looks for. */
  function KeyPattern(key: string): string {
    key + "=\""
  }

  /**
   * `v` sits right after the first `key="` in `t` and a double quote
   * follows it.
   */
  predicate QuotedAfterFirst(t: string, key: string, v: string) {
    var i := Index(t, KeyPattern(key));
    var start := i + |KeyPattern(key)|;
    0 <= i && start + |v| < |t| && t[start..start + |v|] == v && t[start + |v|] == '"'
  }

  /**
   * The search inside an already trimmed line `t`: the text between the
   * first `key="` and the next double quote, or "".
   */
  function QuotedValue(t: string, key: string): (r: string)
    ensures '"' !in r
    ensures t == "" || key == "" || !Contains(t, KeyPattern(key)) ==> r == ""
    ensures r != "" ==> QuotedAfterFirst(t, key, r)
  {
    if t == "" || key == "" then ""
    else
      var i := Index(t, KeyPattern(key));
      if i < 0 then "" else UpToQuote(t, i + |KeyPattern(key)|)
  }

  /**
   * `extractQuotedKV`: in the trimmed `raw`, the text between the first
   * `key="` and the next double quote; "" when `raw` is blank, `key` is
   * empty, the pattern is absent or the quote is never closed.
   */
  function ExtractQuotedKV(raw: string, key: string): (r: string)
    ensures '"' !in r
    ensures TrimSpace(raw) == "" || key == "" ==> r == ""
    ensures !Contains(TrimSpace(raw), KeyPattern(key)) ==> r == ""
    ensures r != "" ==> QuotedAfterFirst(TrimSpace(raw), key, r)
  {
    QuotedValue(TrimSpace(raw), key)
  }

  /**
   * The other direction, inside a trimmed line: when `key` is not empty,
   * `key="` occurs in `t` and a quote follows its first occurrence, the
   * result is exactly the quote-free text in between.
   */
  lemma QuotedValueComplete(t: string, key: string, n: nat)
    requires key != "" && Index(t, KeyPattern(key)) >= 0
    requires var start := Index(t, KeyPattern(key)) + |KeyPattern(key)|;
             start + n < |t| && t[start + n] == '"' && '"' !in t[start..start + n]
    ensures var start := Index(t, KeyPattern(key)) + |KeyPattern(key)|;
            QuotedValue(t, key) == t[start..start + n]
  {
    var start := Index(t, KeyPattern(key)) + |KeyPattern(key)|;
    UpToQuoteFinds(t, start, n);
    assert QuotedValue(t, key) == UpToQuote(t, start);
  }

  /** The same for `extractQuotedKV` itself, on the trimmed `raw`. */
  lemma ExtractQuotedKVComplete(raw: string, key: string, n: nat)
    requires key != "" && Index(TrimSpace(raw), KeyPattern(key)) >= 0
    requires var t := TrimSpace(raw);
             var start := Index(t, KeyPattern(key)) + |KeyPattern(key)|;
             start + n < |t| && t[start + n] == '"' && '"' !in t[start..start + n]
    ensures var t := TrimSpace(raw);
            var start := Index(t, KeyPattern(key)) + |KeyPattern(key)|;
            ExtractQuotedKV(raw, key) == t[start..start + n]
  {
    QuotedValueComplete(TrimSpace(raw), key, n);
  }

  /** The root clause of the title. */
  const ActingAsRoot := ", acting as root"

  /**
   * Who acted: the quoted `AUID="..."` from the raw audit line when present,
   * else the trimmed `auid` field, else "unknown user".
   */
  function Actor(a: CollectorAlert): (r: string)
    ensures r != ""
    ensures ExtractQuotedKV(a.raw, "AUID") != "" ==> r == ExtractQuotedKV(a.raw, "AUID")
    ensures ExtractQuotedKV(a.raw, "AUID") == "" && TrimSpace(a.auid) != "" ==> r == TrimSpace(a.auid)
    ensures ExtractQuotedKV(a.raw, "AUID") == "" && TrimSpace(a.auid) == "" ==> r == "unknown user"
  {
    var v := ExtractQuotedKV(a.raw, "AUID");
    if v != "" then v
    else if TrimSpace(a.auid) != "" then TrimSpace(a.auid)
    else "unknown user"
  }

  /** The executable named in the title: the trimmed `exe`, or "(unknown exe)". */
  function ShownExe(a: CollectorAlert): (r: string)
    ensures r != ""
    ensures TrimSpace(a.exe) != "" ==> r == TrimSpace(a.exe)
    ensures TrimSpace(a.exe) == "" ==> r == "(unknown exe)"
  {
    if TrimSpace(a.exe) == "" then "(unknown exe)" else TrimSpace(a.exe)
  }

  /** `s` ends with `suffix`. */
  predicate EndsWith(s: string, suffix: string) {
    |suffix| <= |s| && s[|s| - |suffix|..] == suffix
  }

  /** What joins the actor part of the title to the executable. */
  const ExecutedTail := ", executed "
  const SuccessTail := ", successfully executed "

  /** The joining clause, by outcome. */
  function Tail(success: bool): string {
    if success then SuccessTail else ExecutedTail
  }

  /** The characters that tell the clauses apart. */
  lemma ClauseFacts()
    ensures |ActingAsRoot| == 16 && ActingAsRoot[2] == 'a'
    ensures |ExecutedTail| == 11 && ExecutedTail[0] == ',' && ExecutedTail[2] == 'e'
    ensures |SuccessTail| == 24 && SuccessTail[13] == 'y' && SuccessTail[2] == 's'
  {
  }

  /** The title assembled from its parts. */
  function ComposeTitle(actor: string, root: bool, success: bool, exe: string): string {
    actor + (if root then ActingAsRoot else "") + Tail(success) + exe
  }


  /** A title starts with its actor, and with the root clause right after it exactly when `root` holds. */
  lemma ComposeTitleHead(actor: string, root: bool, success: bool, exe: string)
    ensures actor <= ComposeTitle(actor, root, success, exe)
    ensures root <==> actor + ActingAsRoot <= ComposeTitle(actor, root, success, exe)
  {
    var r := ComposeTitle(actor, root, success, exe);
    var tail := Tail(success) + exe;
    if root {
      assert r == (actor + ActingAsRoot) + tail;
    } else {
      assert r == actor + tail;
      ClauseFacts();
      assert tail[2] != 'a';
      assert r[|actor| + 2] == tail[2];
      assert (actor + ActingAsRoot)[|actor| + 2] == ActingAsRoot[2];
    }
  }

  /** A title ends with the success clause and the executable exactly when `success` holds. */
  lemma ComposeTitleTail(actor: string, root: bool, success: bool, exe: string)
    ensures success <==> EndsWith(ComposeTitle(actor, root, success, exe), SuccessTail + exe)
    ensures !success ==> EndsWith(ComposeTitle(actor, root, success, exe), ExecutedTail + exe)
  {
    var r := ComposeTitle(actor, root, success, exe);
    var front := actor + (if root then ActingAsRoot else "");
    var tail := Tail(success) + exe;
    assert r == front + tail;
    assert r[|r| - |tail|..] == tail;
    if !success {
      ClauseFacts();
      var long := SuccessTail + exe;
      assert tail[0] == ',';
      assert long[|long| - |tail|] == SuccessTail[13];
    }
  }

  /**
   * `collectorTitle`: "<actor>[, acting as root], [successfully ]executed <exe>".
   * It starts with the actor; the root clause follows exactly when the
   * trimmed `euid` is "0"; it ends with the success clause exactly when the
   * raw line says "success=yes", else with ", executed <exe>".
   */
  function CollectorTitle(a: CollectorAlert): (r: string)
    ensures Actor(a) <= r
    ensures TrimSpace(a.euid) == "0" <==> Actor(a) + ActingAsRoot <= r
    ensures Contains(a.raw, "success=yes") <==> EndsWith(r, SuccessTail + ShownExe(a))
    ensures !Contains(a.raw, "success=yes") ==> EndsWith(r, ExecutedTail + ShownExe(a))
    ensures |r| == |Actor(a)| + (if TrimSpace(a.euid) == "0" then |ActingAsRoot| else 0)
                   + |Tail(Contains(a.raw, "success=yes"))| + |ShownExe(a)|
  {
    var root, success := TrimSpace(a.euid) == "0", Contains(a.raw, "success=yes");
    ComposeTitleHead(Actor(a), root, success, ShownExe(a));
    ComposeTitleTail(Actor(a), root, success, ShownExe(a));
    ComposeTitle(Actor(a), root, success, ShownExe(a))
  }

  /** A line that opens with `key="<name>"` gives `name`. */
  lemma QuotedValueAtStart(t: string, key: string, name: string, rest: string)
    requires key != "" && '"' !in name
    requires t == KeyPattern(key) + name + "\"" + rest
    ensures QuotedValue(t, key) == name
  {
    var p := KeyPattern(key);
    assert t[0..|p|] == p;
    assert OccursAt(t, p, 0);
    assert t[|p|..|p| + |name|] == name && t[|p| + |name|] == '"';
    QuotedValueComplete(t, key, |name|);
  }

  /**
   * A raw line that opens with `AUID="<name>"` names the actor, whatever
   * the numeric `auid` field says.
   */
  lemma ActorFromLeadingAUID(a: CollectorAlert, name: string, rest: string)
    requires name != "" && '"' !in name
    requires rest == [] || !IsSpace(rest[|rest| - 1])
    requires a.raw == KeyPattern("AUID") + name + "\"" + rest
    ensures Actor(a) == name
  {
    assert a.raw[0] == 'A';
    assert a.raw[|a.raw| - 1] == (if rest == [] then '"' else rest[|rest| - 1]);
    TrimmedIsFixed(a.raw);
    QuotedValueAtStart(a.raw, "AUID", name, rest);
  }
}
