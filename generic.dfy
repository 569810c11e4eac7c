/**
 * The generic (Splunk-style) payload: `extractAlert` resolves each field of
 * the record through an ordered chain of candidate keys, looking first in the
 * "result" object and, for some fields, in the top-level payload.
 */
module Generic {
  import opened Records
  import opened Payload
  import opened GoText

  const HostKeys: seq<string> := ["host", "hostname", "computer"]
  const SourceKeys: seq<string> := ["source"]
  const SrcIPKeys: seq<string> := ["src", "src_ip", "source_ip", "srcip", "clientip", "ip"]
  const AlertTypeKeys: seq<string> := ["alert_type", "type", "signature"]
  const SearchKeys: seq<string> := ["search_name", "search", "savedsearch_name"]
  const SourceTypeKeys: seq<string> := ["sourcetype"]

  /** A generic record: only the extracted fields and the payload text are set. */
  function GenericAlert(host: string, source: string, srcIP: string, searchName: string,
                        alertType: string, raw: string): Alert
  {
    EmptyAlert.(host := host, source := source, srcIP := srcIP, searchName := searchName,
                alertType := alertType, raw := raw)
  }

  /**
   * `a` is a record `extractAlert(payload, raw)` may build:
   *  - host and source come from the result object only;
   *  - srcIP comes from the result object, and from the payload only when
   *    every candidate misses in the result object;
   *  - alertType tries the result object's type keys, then the payload's
   *    search-name keys, then the result object's `sourcetype`;
   *  - searchName comes from the payload only;
   *  - `raw` is the payload text unchanged and nothing else is set.
   */
  ghost predicate IsExtraction(payload: Object, raw: string, a: Alert) {
    var result := ExtractResult(payload);
    && IsPick(result, HostKeys, a.host)
    && IsPick(result, SourceKeys, a.source)
    && (if AllMiss(result, SrcIPKeys) then IsPick(payload, SrcIPKeys, a.srcIP)
        else IsPick(result, SrcIPKeys, a.srcIP))
    && (if !AllMiss(result, AlertTypeKeys) then IsPick(result, AlertTypeKeys, a.alertType)
        else if !AllMiss(payload, SearchKeys) then IsPick(payload, SearchKeys, a.alertType)
        else IsPick(result, SourceTypeKeys, a.alertType))
    && IsPick(payload, SearchKeys, a.searchName)
    && a == GenericAlert(a.host, a.source, a.srcIP, a.searchName, a.alertType, raw)
  }

  /** `extractAlert`. */
  method ExtractAlert(payload: Object, raw: string) returns (a: Alert)
    ensures IsExtraction(payload, raw, a)
    ensures a.raw == raw && a.rawText == "" && a.severity == "" && a.title == ""
  {
    var result := ExtractResult(payload);
    var host := PickString(result, HostKeys);
    var source := PickString(result, SourceKeys);
    var srcIP := PickString(result, SrcIPKeys);
    if srcIP == "" {
      srcIP := PickString(payload, SrcIPKeys);
    }
    var alertType := PickString(result, AlertTypeKeys);
    if alertType == "" {
      alertType := PickString(payload, SearchKeys);
    }
    if alertType == "" {
      alertType := PickString(result, SourceTypeKeys);
    }
    var searchName := PickString(payload, SearchKeys);
    a := GenericAlert(host, source, srcIP, searchName, alertType, raw);
  }

  /** The result object of the example payload below. */
  const ExampleResultObject: Object := map["host" := JString("h1"), "src_ip" := JString("1.2.3.4")]

  /** The JSON text of the example payload. */
  const ExampleJSON := "{\"result\":{\"host\":\"h1\",\"src_ip\":\"1.2.3.4\"},\"search_name\":\"S\"}"

  /** The payload `{"result":{"host":"h1","src_ip":"1.2.3.4"},"search_name":"S"}`, decoded. */
  const ExamplePayload: Object :=
    map["result" := JObject(ExampleResultObject), "search_name" := JString("S")]

  /** A candidate whose length matches no key of the example result object misses there. */
  lemma ExampleMissesByLength(k: string)
    requires |k| != 4 && |k| != 6
    ensures Misses(ExampleResultObject, k)
  {
  }

  /** "type" and "source" have the lengths of "host" and "src_ip" but still miss. */
  lemma ExampleMissesTypeAndSource()
    ensures Misses(ExampleResultObject, "type") && Misses(ExampleResultObject, "source")
  {
    assert FoldAscii('h') != FoldAscii('t');
    assert FoldAscii('r') != FoldAscii('o');
    assert !EqualFold("host", "type") by { assert "host"[0] == 'h' && "type"[0] == 't'; }
    assert !EqualFold("src_ip", "source") by { assert "src_ip"[1] == 'r' && "source"[1] == 'o'; }
  }

  lemma ExampleHost(r: string)
    requires IsPick(ExampleResultObject, HostKeys, r)
    ensures r == "h1"
  {
    assert HostKeys[..0] == [];
    PickExactAt(ExampleResultObject, HostKeys, 0, r);
  }

  lemma ExampleSrcIP(r: string)
    requires IsPick(ExampleResultObject, SrcIPKeys, r)
    ensures r == "1.2.3.4"
  {
    ExampleMissesByLength("src");
    assert SrcIPKeys[..1] == ["src"];
    PickExactAt(ExampleResultObject, SrcIPKeys, 1, r);
  }

  lemma ExampleSearchName(r: string)
    requires IsPick(ExamplePayload, SearchKeys, r)
    ensures r == "S"
  {
    assert SearchKeys[..0] == [];
    PickExactAt(ExamplePayload, SearchKeys, 0, r);
  }

  lemma ExampleFallbacks()
    ensures AllMiss(ExampleResultObject, AlertTypeKeys)
    ensures AllMiss(ExampleResultObject, SourceKeys)
    ensures !AllMiss(ExamplePayload, SearchKeys)
    ensures !AllMiss(ExampleResultObject, SrcIPKeys)
  {
    assert EqualFold("src_ip", "src_ip");
    assert !Misses(ExampleResultObject, SrcIPKeys[1]);
    ExampleMissesByLength("alert_type");
    ExampleMissesByLength("signature");
    ExampleMissesTypeAndSource();
    assert EqualFold("search_name", "search_name");
    assert !Misses(ExamplePayload, SearchKeys[0]);
  }

  /** The fields taken from the example's result object. */
  lemma ExampleResultFields(host: string, srcIP: string, source: string)
    requires IsPick(ExampleResultObject, HostKeys, host)
    requires IsPick(ExampleResultObject, SrcIPKeys, srcIP)
    requires IsPick(ExampleResultObject, SourceKeys, source)
    ensures host == "h1" && srcIP == "1.2.3.4" && source == ""
  {
    ExampleFallbacks();
    ExampleHost(host);
    ExampleSrcIP(srcIP);
  }

  /**
   * Whatever map order Go uses, that payload gives host "h1", srcIP
   * "1.2.3.4", searchName "S", no source, and (no type key in the result
   * object) alertType "S" from the payload's search name.
   */
  lemma ExampleExtraction(a: Alert)
    requires IsExtraction(ExamplePayload, ExampleJSON, a)
    ensures a.raw == ExampleJSON
    ensures a.host == "h1" && a.srcIP == "1.2.3.4" && a.searchName == "S" && a.alertType == "S"
    ensures a.source == ""
  {
    assert ExtractResult(ExamplePayload) == ExampleResultObject;
    ExampleFallbacks();
    ExampleResultFields(a.host, a.srcIP, a.source);
    ExampleSearchName(a.searchName);
    ExampleSearchName(a.alertType);
  }
}
