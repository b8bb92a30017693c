/** The anisette (device fingerprint) fetch of AltSignExtensions.swift: an ordered walk over the
    public anisette servers, the remapping of each server's key names to the ten canonical
    fields, the all-fields validation and the classification of total failure.

    The network is an oracle: `responses[i]` is what the i-th server of `AnisetteServers` does
    when asked. A JSON body is modelled after `String(describing:)` has turned each value into a
    string, so as a `map<string, string>`. */
module Anisette {
  import opened Wrappers
  import opened Errors

  /** The ten fields of `ALTAnisetteData`, in the order of the key-mapping table. */
  datatype AnisetteData = AnisetteData(
    machineID: string,
    oneTimePassword: string,
    localUserID: string,
    routingInfo: string,
    deviceUniqueIdentifier: string,
    deviceSerialNumber: string,
    deviceDescription: string,
    date: string,
    locale: string,
    timeZone: string)

  type Json = map<string, string>

  /** One row of the remapping table: the server key names to try, in order, and the canonical
      key they fill. */
  datatype KeyMapping = KeyMapping(serverKeys: seq<string>, altKey: string)

  /** What one server does with the GET request. `Thrown` is an error raised by the request
      itself (a timeout, a lost connection, ...). `accepted` is whether `ALTAnisetteData(json:)`
      accepts the remapped dictionary: that initializer is foreign code. */
  datatype ServerResponse =
    | Thrown(error: Error)
    | NotHTTP
    | HTTP(statusCode: int, body: Option<Json>, accepted: bool)

  const AnisetteServers: seq<string> :=
    ["https://ani.sidestore.io/", "https://armconverter.com/anisette/irGb3Quww8zrhgqnzmrx"]

  const KeyMappings: seq<KeyMapping> := [
    KeyMapping(["X-Apple-I-MD-M", "machineID"], "machineID"),
    KeyMapping(["X-Apple-I-MD", "oneTimePassword"], "oneTimePassword"),
    KeyMapping(["X-Apple-I-MD-LU", "localUserID"], "localUserID"),
    KeyMapping(["X-Apple-I-MD-RINFO", "routingInfo"], "routingInfo"),
    KeyMapping(["X-Mme-Device-Id", "deviceUniqueIdentifier"], "deviceUniqueIdentifier"),
    KeyMapping(["X-Apple-I-SRL-NO", "deviceSerialNumber"], "deviceSerialNumber"),
    KeyMapping(["X-MMe-Client-Info", "deviceDescription"], "deviceDescription"),
    KeyMapping(["X-Apple-I-Client-Time", "date"], "date"),
    KeyMapping(["X-Apple-Locale", "locale"], "locale"),
    KeyMapping(["X-Apple-I-TimeZone", "timeZone"], "timeZone")
  ]

  const RequiredKeys: seq<string> := [
    "machineID", "oneTimePassword", "localUserID", "routingInfo",
    "deviceUniqueIdentifier", "deviceSerialNumber", "deviceDescription",
    "date", "locale", "timeZone"
  ]

  // ---------------------------------------------------------------------------------------------
  // Key remapping

  /** The value of the first key of `keys` that the JSON object has. */
  function FirstPresent(keys: seq<string>, json: Json): (r: Option<string>)
    ensures r.None? <==> forall t :: 0 <= t < |keys| ==> keys[t] !in json
    ensures r.Some? ==> exists t :: 0 <= t < |keys| && keys[t] in json && json[keys[t]] == r.value
  {
    if keys == [] then None
    else if keys[0] in json then Some(json[keys[0]])
    else
      var r := FirstPresent(keys[1..], json);
      assert forall t :: 1 <= t < |keys| ==> keys[t] == keys[1..][t - 1];
      r
  }

  lemma {:induction false} FirstPresentIsFirst(keys: seq<string>, json: Json, j: nat)
    requires j < |keys| && keys[j] in json
    requires forall t :: 0 <= t < j ==> keys[t] !in json
    ensures FirstPresent(keys, json) == Some(json[keys[j]])
  {
    if j > 0 {
      FirstPresentIsFirst(keys[1..], json, j - 1);
    }
  }

  /** The dictionary the mapping loop builds from the first `|ms|` rows of the table. */
  function RemapRows(ms: seq<KeyMapping>, json: Json): map<string, string> {
    if ms == [] then map[]
    else
      var d := RemapRows(ms[..|ms| - 1], json);
      var m := ms[|ms| - 1];
      match FirstPresent(m.serverKeys, json)
      case Some(v) => d[m.altKey := v]
      case None => d
  }

  function Remap(json: Json): map<string, string> {
    RemapRows(KeyMappings, json)
  }

  ghost predicate DistinctAltKeys(ms: seq<KeyMapping>) {
    forall i, j :: 0 <= i < j < |ms| ==> ms[i].altKey != ms[j].altKey
  }

  lemma {:induction false} RemapRowsKeys(ms: seq<KeyMapping>, json: Json, k: string)
    requires k in RemapRows(ms, json)
    ensures exists t :: 0 <= t < |ms| && ms[t].altKey == k
  {
    var m := ms[|ms| - 1];
    if k != m.altKey || FirstPresent(m.serverKeys, json).None? {
      RemapRowsKeys(ms[..|ms| - 1], json, k);
      var t :| 0 <= t < |ms| - 1 && ms[..|ms| - 1][t].altKey == k;
      assert ms[t].altKey == k;
    } else {
      assert ms[|ms| - 1].altKey == k;
    }
  }

  lemma {:induction false} RemapRowsField(ms: seq<KeyMapping>, json: Json, i: nat)
    requires DistinctAltKeys(ms) && i < |ms|
    ensures ms[i].altKey in RemapRows(ms, json) <==> FirstPresent(ms[i].serverKeys, json).Some?
    ensures ms[i].altKey in RemapRows(ms, json) ==>
      RemapRows(ms, json)[ms[i].altKey] == FirstPresent(ms[i].serverKeys, json).value
  {
    var front := ms[..|ms| - 1];
    assert DistinctAltKeys(front) by {
      forall a, b | 0 <= a < b < |front| ensures front[a].altKey != front[b].altKey {
        assert front[a] == ms[a] && front[b] == ms[b];
      }
    }
    if i < |ms| - 1 {
      assert front[i] == ms[i];
      RemapRowsField(front, json, i);
    } else {
      forall k | k in RemapRows(front, json) ensures k != ms[i].altKey {
        RemapRowsKeys(front, json, k);
        var t :| 0 <= t < |front| && front[t].altKey == k;
        assert ms[t].altKey == k;
      }
    }
  }

  /** For the canonical field of row `i`, the remapped dictionary holds exactly the value of
      the first of that row's server keys that the JSON object has. */
  lemma RemapField(json: Json, i: nat)
    requires i < |KeyMappings|
    ensures KeyMappings[i].altKey in Remap(json) <==> FirstPresent(KeyMappings[i].serverKeys, json).Some?
    ensures KeyMappings[i].altKey in Remap(json) ==>
      Remap(json)[KeyMappings[i].altKey] == FirstPresent(KeyMappings[i].serverKeys, json).value
  {
    RemapRowsField(KeyMappings, json, i);
  }

  /** A server that sends `X-Apple-I-MD-M` has that value used as the machine identifier,
      whatever it sends under `machineID`. */
  lemma AppleHeaderNameWins(json: Json)
    requires "X-Apple-I-MD-M" in json
    ensures "machineID" in Remap(json) && Remap(json)["machineID"] == json["X-Apple-I-MD-M"]
  {
    RemapField(json, 0);
  }

  /** The key-mapping loop, as the source runs it: rows in order, and within a row the server
      keys in order until the first one present. */
  method RemapKeys(json: Json) returns (dict: map<string, string>)
    ensures dict == Remap(json)
  {
    dict := map[];
    var i := 0;
    while i < |KeyMappings|
      invariant 0 <= i <= |KeyMappings|
      invariant dict == RemapRows(KeyMappings[..i], json)
    {
      var mapping := KeyMappings[i];
      var j := 0;
      var found := false;
      while j < |mapping.serverKeys| && !found
        invariant 0 <= j <= |mapping.serverKeys|
        invariant !found ==> forall t :: 0 <= t < j ==> mapping.serverKeys[t] !in json
        invariant !found ==> dict == RemapRows(KeyMappings[..i], json)
        invariant found ==> dict == RemapRows(KeyMappings[..i + 1], json)
      {
        var serverKey := mapping.serverKeys[j];
        if serverKey in json {
          FirstPresentIsFirst(mapping.serverKeys, json, j);
          assert KeyMappings[..i + 1][..i] == KeyMappings[..i];
          dict := dict[mapping.altKey := json[serverKey]];
          found := true;
        }
        j := j + 1;
      }
      assert KeyMappings[..i + 1][..i] == KeyMappings[..i];
      i := i + 1;
    }
    assert KeyMappings[..|KeyMappings|] == KeyMappings;
  }

  // ---------------------------------------------------------------------------------------------
  // Validation

  /** `requiredKeys.filter { stringDict[$0] == nil }`. */
  function MissingKeys(required: seq<string>, dict: map<string, string>): (r: seq<string>)
    ensures forall k :: k in r <==> k in required && k !in dict
  {
    if required == [] then []
    else
      var rest := MissingKeys(required[1..], dict);
      assert forall k :: k in required <==> k == required[0] || k in required[1..];
      if required[0] !in dict then [required[0]] + rest else rest
  }

  /** The canonical field of row `i`, if the JSON object carries it under one of its names. */
  function Field(json: Json, i: nat): Option<string>
    requires i < |KeyMappings|
  {
    FirstPresent(KeyMappings[i].serverKeys, json)
  }

  /** Every one of the ten canonical fields can be resolved from this one JSON object. */
  predicate Resolvable(json: Json) {
    forall i :: 0 <= i < |KeyMappings| ==> Field(json, i).Some?
  }

  /** The data a complete JSON object denotes, read field by field from the table; an
      independent statement of what the remap-then-validate pipeline yields. */
  function Reference(json: Json): AnisetteData
    requires Resolvable(json)
  {
    AnisetteData(
      Field(json, 0).value, Field(json, 1).value, Field(json, 2).value, Field(json, 3).value,
      Field(json, 4).value, Field(json, 5).value, Field(json, 6).value, Field(json, 7).value,
      Field(json, 8).value, Field(json, 9).value)
  }

  /** `ALTAnisetteData(json:)` on a dictionary that has every required key. */
  function Build(dict: map<string, string>): AnisetteData
    requires forall k :: k in RequiredKeys ==> k in dict
  {
    AnisetteData(
      dict[RequiredKeys[0]], dict[RequiredKeys[1]], dict[RequiredKeys[2]], dict[RequiredKeys[3]],
      dict[RequiredKeys[4]], dict[RequiredKeys[5]], dict[RequiredKeys[6]], dict[RequiredKeys[7]],
      dict[RequiredKeys[8]], dict[RequiredKeys[9]])
  }

  lemma RequiredAreAltKeys()
    ensures |RequiredKeys| == |KeyMappings|
    ensures forall i :: 0 <= i < |KeyMappings| ==> RequiredKeys[i] == KeyMappings[i].altKey
    ensures DistinctAltKeys(KeyMappings)
  {
  }

  lemma NoMissingIffAllPresent(required: seq<string>, dict: map<string, string>)
    ensures MissingKeys(required, dict) == [] <==> forall i :: 0 <= i < |required| ==> required[i] in dict
  {
    var m := MissingKeys(required, dict);
    if m != [] {
      assert m[0] in m;
    }
  }

  lemma RemapMatchesFields(json: Json)
    ensures forall i :: 0 <= i < |RequiredKeys| ==> (RequiredKeys[i] in Remap(json) <==> Field(json, i).Some?)
    ensures forall i :: 0 <= i < |RequiredKeys| && RequiredKeys[i] in Remap(json) ==>
      Remap(json)[RequiredKeys[i]] == Field(json, i).value
  {
    RequiredAreAltKeys();
    forall i | 0 <= i < |KeyMappings|
      ensures RequiredKeys[i] in Remap(json) <==> Field(json, i).Some?
      ensures RequiredKeys[i] in Remap(json) ==> Remap(json)[RequiredKeys[i]] == Field(json, i).value
    {
      RemapField(json, i);
    }
  }

  /** Validation of a remapped dictionary succeeds exactly when every canonical field was
      resolved, and the data built from it is the reference reading of the JSON object. */
  lemma ValidationIsCompleteness(json: Json)
    ensures MissingKeys(RequiredKeys, Remap(json)) == [] <==> Resolvable(json)
    ensures Resolvable(json) ==>
      (forall k :: k in RequiredKeys ==> k in Remap(json)) && Build(Remap(json)) == Reference(json)
  {
    RemapMatchesFields(json);
    NoMissingIffAllPresent(RequiredKeys, Remap(json));
  }

  // ---------------------------------------------------------------------------------------------
  // The server loop

  /** The data one server's response yields, or None when the loop moves on to the next server. */
  function Accept(resp: ServerResponse): Option<AnisetteData> {
    match resp
    case Thrown(_) => None
    case NotHTTP => None
    case HTTP(status, body, accepted) =>
      if status != 200 || body.None? then None
      else
        var dict := Remap(body.value);
        if MissingKeys(RequiredKeys, dict) != [] || !accepted then None
        else
          ValidationIsCompleteness(body.value);
          Some(Build(dict))
  }

  /** A server contributes data only with a 200 response whose JSON object resolves all ten
      fields; the data is then the reference reading of that one object, never a mixture. */
  lemma AcceptSpec(resp: ServerResponse)
    ensures Accept(resp).Some? <==>
      resp.HTTP? && resp.statusCode == 200 && resp.body.Some? && resp.accepted && Resolvable(resp.body.value)
    ensures Accept(resp).Some? ==> Accept(resp).value == Reference(resp.body.value)
  {
    if resp.HTTP? && resp.statusCode == 200 && resp.body.Some? {
      ValidationIsCompleteness(resp.body.value);
    }
  }

  /** The first present value of a sequence of per-server verdicts, scanning in list order. */
  function FirstSome<T>(os: seq<Option<T>>): Option<T> {
    if os == [] then None
    else
      var earlier := FirstSome(os[..|os| - 1]);
      if earlier.Some? then earlier else os[|os| - 1]
  }

  lemma {:induction false} FirstSomeNone<T>(os: seq<Option<T>>)
    ensures FirstSome(os).None? <==> forall i :: 0 <= i < |os| ==> os[i].None?
  {
    if os != [] {
      var front := os[..|os| - 1];
      FirstSomeNone(front);
      assert forall i :: 0 <= i < |front| ==> front[i] == os[i];
    }
  }

  lemma {:induction false} FirstSomeAt<T>(os: seq<Option<T>>, i: nat)
    requires i < |os| && os[i].Some?
    requires forall j :: 0 <= j < i ==> os[j].None?
    ensures FirstSome(os) == os[i]
  {
    var front := os[..|os| - 1];
    if i < |os| - 1 {
      assert front[i] == os[i];
      FirstSomeAt(front, i);
    } else {
      assert forall j :: 0 <= j < |front| ==> front[j] == os[j];
      FirstSomeNone(front);
    }
  }

  /** What each server contributes, in list order. */
  function Verdicts(rs: seq<ServerResponse>): (vs: seq<Option<AnisetteData>>)
    ensures |vs| == |rs| && forall i :: 0 <= i < |rs| ==> vs[i] == Accept(rs[i])
  {
    seq(|rs|, i requires 0 <= i < |rs| => Accept(rs[i]))
  }

  /** `lastError` after the loop: only a thrown request error sets it. */
  function LastThrown(rs: seq<ServerResponse>): Option<Error> {
    if rs == [] then None
    else if rs[|rs| - 1].Thrown? then Some(rs[|rs| - 1].error)
    else LastThrown(rs[..|rs| - 1])
  }

  /** `lastError as? URLError` with code `.timedOut` or `.networkConnectionLost`. */
  predicate IsTimeout(e: Error) {
    e.URLError? && (e.urlCode == TimedOut || e.urlCode == NetworkConnectionLost)
  }

  /** The error thrown once every server has failed. */
  function Classify(lastError: Option<Error>): (e: Error)
    ensures lastError.None? ==> e == AltSign(InvalidAnisetteData)
    ensures lastError.Some? && IsTimeout(lastError.value) ==> e == AltSign(AnisetteServerTimeout)
    ensures lastError.Some? && !IsTimeout(lastError.value) ==> e == lastError.value
  {
    match lastError
    case None => AltSign(InvalidAnisetteData)
    case Some(err) =>
      if IsTimeout(err) then AltSign(AnisetteServerTimeout)
      else err
  }

  /** What `fetchFromServer` returns or throws, given every server's response. */
  function ExpectedFetch(rs: seq<ServerResponse>): Result<AnisetteData, Error> {
    match FirstSome(Verdicts(rs))
    case Some(d) => Success(d)
    case None => Failure(Classify(LastThrown(rs)))
  }

  /** Servers are tried strictly in list order: the fetch succeeds exactly when some server
      gives complete data, and then it returns the data of the first such server. */
  lemma FetchReturnsFirstComplete(rs: seq<ServerResponse>)
    ensures ExpectedFetch(rs).Success? <==> exists i :: 0 <= i < |rs| && Accept(rs[i]).Some?
    ensures forall i ::
              (0 <= i < |rs| && Accept(rs[i]).Some? && (forall j :: 0 <= j < i ==> Accept(rs[j]).None?))
              ==> ExpectedFetch(rs) == Success(Accept(rs[i]).value)
  {
    var vs := Verdicts(rs);
    FirstSomeNone(vs);
    forall i | 0 <= i < |rs| && Accept(rs[i]).Some? && (forall j :: 0 <= j < i ==> Accept(rs[j]).None?)
      ensures ExpectedFetch(rs) == Success(Accept(rs[i]).value)
    {
      FirstSomeAt(vs, i);
    }
  }

  lemma {:induction false} LastThrownIsLast(rs: seq<ServerResponse>)
    ensures LastThrown(rs).None? <==> forall i :: 0 <= i < |rs| ==> !rs[i].Thrown?
    ensures LastThrown(rs).Some? ==>
      exists i :: 0 <= i < |rs| && rs[i] == Thrown(LastThrown(rs).value) && (forall j :: i < j < |rs| ==> !rs[j].Thrown?)
  {
    if rs != [] && !rs[|rs| - 1].Thrown? {
      var front := rs[..|rs| - 1];
      LastThrownIsLast(front);
      assert forall i :: 0 <= i < |front| ==> front[i] == rs[i];
    }
  }

  /** When no server gives complete data: a timeout or lost connection as the last request error
      becomes `anisetteServerTimeout`; any other last request error is rethrown as it is; with no
      request error at all (only bad statuses, bodies or fields), `invalidAnisetteData`. */
  lemma FetchFailureClassification(rs: seq<ServerResponse>)
    requires forall i :: 0 <= i < |rs| ==> Accept(rs[i]).None?
    ensures (forall i :: 0 <= i < |rs| ==> !rs[i].Thrown?) ==>
      ExpectedFetch(rs) == Failure(AltSign(InvalidAnisetteData))
    ensures forall i, e :: 0 <= i < |rs| && rs[i] == Thrown(e) && (forall j :: i < j < |rs| ==> !rs[j].Thrown?) ==>
      ExpectedFetch(rs) == Failure(Classify(Some(e)))
  {
    FirstSomeNone(Verdicts(rs));
    LastThrownIsLast(rs);
    forall i, e | 0 <= i < |rs| && rs[i] == Thrown(e) && (forall j :: i < j < |rs| ==> !rs[j].Thrown?)
      ensures LastThrown(rs) == Some(e)
    {
      var k :| 0 <= k < |rs| && rs[k] == Thrown(LastThrown(rs).value) && forall j :: k < j < |rs| ==> !rs[j].Thrown?;
      assert k == i;
    }
  }

  /** With no server giving data, the fetch fails with the classification of the last request
      error. */
  lemma NoDataFetch(rs: seq<ServerResponse>)
    requires forall i :: 0 <= i < |rs| ==> Accept(rs[i]).None?
    ensures ExpectedFetch(rs) == Failure(Classify(LastThrown(rs)))
  {
    FirstSomeNone(Verdicts(rs));
  }

  /** Only the last request error decides: a timeout on the first server is reported as the
      second server's error whenever that server throws something else, and survives when the
      second server answers with a bad status instead of throwing. */
  lemma LastErrorDecidesTimeout(timedOut: Error, refused: Error)
    requires timedOut == URLError(TimedOut, "timed out")
    requires refused == URLError(OtherURLCode(-1004), "could not connect")
    ensures ExpectedFetch([Thrown(timedOut), Thrown(refused)]) == Failure(refused)
    ensures ExpectedFetch([Thrown(refused), Thrown(timedOut)]) == Failure(AltSign(AnisetteServerTimeout))
    ensures ExpectedFetch([Thrown(timedOut), HTTP(500, None, false)]) == Failure(AltSign(AnisetteServerTimeout))
  {
    NoDataFetch([Thrown(timedOut), Thrown(refused)]);
    NoDataFetch([Thrown(refused), Thrown(timedOut)]);
    var rs := [Thrown(timedOut), HTTP(500, None, false)];
    NoDataFetch(rs);
    assert rs[..1] == [Thrown(timedOut)];
  }

  /** Every server timing out gives the distinguished timeout error. */
  lemma AllTimedOut(rs: seq<ServerResponse>)
    requires |rs| > 0
    requires forall i :: 0 <= i < |rs| ==> rs[i].Thrown? && rs[i].error.URLError? && rs[i].error.urlCode == TimedOut
    ensures ExpectedFetch(rs) == Failure(AltSign(AnisetteServerTimeout))
  {
    forall i | 0 <= i < |rs| ensures Accept(rs[i]).None? { }
    FetchFailureClassification(rs);
    assert rs[|rs| - 1] == Thrown(rs[|rs| - 1].error);
  }

  /** `AnisetteData.fetchFromServer` on a real device. */
  method FetchFromServer(responses: seq<ServerResponse>) returns (r: Result<AnisetteData, Error>)
    requires |responses| == |AnisetteServers|
    ensures r == ExpectedFetch(responses)
  {
    var lastError: Option<Error> := None;
    var i := 0;
    while i < |AnisetteServers|
      invariant 0 <= i <= |AnisetteServers|
      invariant FirstSome(Verdicts(responses)[..i]).None?
      invariant lastError == LastThrown(responses[..i])
    {
      ghost var vs := Verdicts(responses);
      assert vs[..i + 1][..i] == vs[..i];
      ghost var seen := responses[..i + 1];
      assert seen[..i] == responses[..i] && seen[i] == responses[i];
      assert LastThrown(seen) == if responses[i].Thrown? then Some(responses[i].error) else LastThrown(responses[..i]);
      match responses[i] {
        case Thrown(e) =>
          lastError := Some(e);
        case NotHTTP =>
        case HTTP(status, body, accepted) =>
          if status == 200 && body.Some? {
            var dict := RemapKeys(body.value);
            var missing := MissingKeys(RequiredKeys, dict);
            if missing == [] && accepted {
              ValidationIsCompleteness(body.value);
              var data := Build(dict);
              FirstSomePrefix(Verdicts(responses), i);
              return Success(data);
            }
          }
      }
      i := i + 1;
    }
    assert responses[..i] == responses;
    assert Verdicts(responses)[..i] == Verdicts(responses);
    r := Failure(Classify(lastError));
  }

  lemma FirstSomePrefix<T>(os: seq<Option<T>>, i: nat)
    requires i < |os| && FirstSome(os[..i]).None? && os[i].Some?
    ensures FirstSome(os) == os[i]
  {
    FirstSomeNone(os[..i]);
    forall j | 0 <= j < i ensures os[j].None? {
      assert os[..i][j] == os[j];
    }
    FirstSomeAt(os, i);
  }
}
