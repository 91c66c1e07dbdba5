/** The API key store behind `set_apikey` and `get_apikey`. Its state is the
    process environment variable `OPENAI_API_KEY` (absent or present) and the
    text of the `.env` file (absent or present), which every set truncates and
    rewrites to one line. */
module KeyStore {
  import opened Http

  const KeyName: string := "OPENAI_API_KEY"
  const SetOkText: string := "API key set successfully"
  const KeyNotFound: string := "API key not found"

  /** The JSON body of `POST /api/set_apikey`, already deserialised. */
  datatype SetApiKeyRequest = SetApiKeyRequest(apikey: string)

  /** How writing `.env` goes: it succeeds, the open (with create and
      truncate) fails and leaves the file as it was, or the line write fails
      after `kept` characters reached the truncated file. */
  datatype FileFault = NoFault | OpenFails | WriteFails(kept: nat)

  /** The store's whole state as a value. */
  datatype Store = Store(env: Option<string>, dotEnv: Option<string>)

  /** The one line `writeln!(file, "OPENAI_API_KEY={}", apikey)` produces. */
  function EnvLine(apikey: string): (line: string) {
    KeyName + "=" + apikey + "\n"
  }

  /** Reading the key back out of a line of that exact shape. */
  function LineKey(line: string): (key: Option<string>)
    ensures key.Some? ==> |line| == |KeyName| + |key.value| + 2
  {
    if |line| >= |KeyName| + 2 && line[..|KeyName| + 1] == KeyName + "=" && line[|line| - 1] == '\n'
    then Some(line[|KeyName| + 1..|line| - 1])
    else None
  }

  /** The written line carries exactly the key: reading it back gives the key,
      so two different keys never produce the same file. */
  lemma EnvLineRoundTrip(apikey: string)
    ensures LineKey(EnvLine(apikey)) == Some(apikey)
  {
    var line := EnvLine(apikey);
    assert line[..|KeyName| + 1] == KeyName + "=";
    assert line[|KeyName| + 1..|line| - 1] == apikey;
  }

  lemma EnvLineInjective(k1: string, k2: string)
    requires EnvLine(k1) == EnvLine(k2)
    ensures k1 == k2
  {
    EnvLineRoundTrip(k1);
    EnvLineRoundTrip(k2);
  }

  function Min(a: nat, b: nat): nat { if a < b then a else b }

  /** `write_api_key_to_env` on the file's contents: the text the file holds
      afterwards, and whether the call returned `Ok`. */
  function WrittenFile(before: Option<string>, apikey: string, fault: FileFault): (after: Option<string>)
    ensures fault == NoFault ==> after == Some(EnvLine(apikey))
    ensures fault == OpenFails ==> after == before
    ensures fault.WriteFails? ==>
      after.Some? && after.value < EnvLine(apikey)  // proper prefix
  {
    match fault
    case NoFault => Some(EnvLine(apikey))
    case OpenFails => before
    case WriteFails(kept) => Some(EnvLine(apikey)[..Min(kept, |EnvLine(apikey)| - 1)])
  }

  /** `set_apikey` on the state: the file is rewritten as the fault allows,
      and the environment variable takes the request's key in every case. */
  function AfterSet(s: Store, request: SetApiKeyRequest, fault: FileFault): (t: Store)
    ensures t.env == Some(request.apikey)
    ensures t.dotEnv == WrittenFile(s.dotEnv, request.apikey, fault)
  {
    Store(Some(request.apikey), WrittenFile(s.dotEnv, request.apikey, fault))
  }

  /** The response of `set_apikey`, the same whatever the file write did. */
  function SetApiKeyResponse(): (r: Response)
    ensures r.status == 200 && r.cors && r.body == Text(SetOkText)
  {
    Response(200, Text(SetOkText), true)
  }

  /** The response of `get_apikey` for a given environment: 200 with the
      value and the CORS header, or 404 without it. */
  function ApiKeyResponse(env: Option<string>): (r: Response)
    ensures r.status == 200 <==> env.Some?
    ensures r.status == 200 || r.status == 404
    ensures r.cors <==> env.Some?
    ensures r.body == if env.Some? then Text(env.value) else Text(KeyNotFound)
  {
    match env
    case Some(apikey) => Response(200, Text(apikey), true)
    case None => Response(404, Text(KeyNotFound), false)
  }

  /** A set followed by a get answers 200 with the key just set, whether or
      not the file could be written. */
  lemma SetThenGet(s: Store, request: SetApiKeyRequest, fault: FileFault)
    ensures ApiKeyResponse(AfterSet(s, request, fault).env) == Response(200, Text(request.apikey), true)
  {
  }

  /** After a successful write the file holds exactly the line for the new
      key, whatever it held before, and it agrees with the environment. */
  lemma SuccessfulSetTruncates(s1: Store, s2: Store, request: SetApiKeyRequest)
    ensures AfterSet(s1, request, NoFault).dotEnv == AfterSet(s2, request, NoFault).dotEnv
    ensures LineKey(AfterSet(s1, request, NoFault).dotEnv.value) == AfterSet(s1, request, NoFault).env
  {
    EnvLineRoundTrip(request.apikey);
  }

  /** A sequence of set requests, each with the fault its file write met. */
  function ApplySets(s: Store, requests: seq<(SetApiKeyRequest, FileFault)>): (t: Store)
    decreases |requests|
  {
    if requests == [] then s
    else ApplySets(AfterSet(s, requests[0].0, requests[0].1), requests[1..])
  }

  /** The last set wins: after any sequence of sets the environment holds the
      last key, and the file holds its line when that last write succeeded. */
  lemma {:induction false} LastSetWins(s: Store, requests: seq<(SetApiKeyRequest, FileFault)>)
    requires requests != []
    ensures ApplySets(s, requests).env == Some(requests[|requests| - 1].0.apikey)
    ensures requests[|requests| - 1].1 == NoFault ==>
      ApplySets(s, requests).dotEnv == Some(EnvLine(requests[|requests| - 1].0.apikey))
    decreases |requests|
  {
    if |requests| > 1 {
      LastSetWins(AfterSet(s, requests[0].0, requests[0].1), requests[1..]);
    }
  }

  /** Sets whose file open fails never touch the file: it keeps what the
      last set before them wrote. */
  lemma {:induction false} FailedOpensKeepFile(s: Store, requests: seq<(SetApiKeyRequest, FileFault)>)
    requires forall i :: 0 <= i < |requests| ==> requests[i].1 == OpenFails
    ensures ApplySets(s, requests).dotEnv == s.dotEnv
    decreases |requests|
  {
    if requests != [] {
      FailedOpensKeepFile(AfterSet(s, requests[0].0, requests[0].1), requests[1..]);
    }
  }

  /** The store as the running server holds it. */
  class ApiKeyStore {
    /** The process environment variable `OPENAI_API_KEY`. */
    var env: Option<string>
    /** The contents of `.env`; `None` when there is no such file. */
    var dotEnv: Option<string>

    function State(): Store
      reads this
    {
      Store(env, dotEnv)
    }

    /** The state at start-up, after `dotenv()` has done whatever it does. */
    constructor (env0: Option<string>, dotEnv0: Option<string>)
      ensures env == env0 && dotEnv == dotEnv0
    {
      env := env0;
      dotEnv := dotEnv0;
    }

    /** `write_api_key_to_env`: truncate and rewrite `.env` with one line. */
    method WriteApiKeyToEnv(apikey: string, fault: FileFault) returns (ok: bool)
      modifies this`dotEnv
      ensures ok <==> fault == NoFault
      ensures dotEnv == WrittenFile(old(dotEnv), apikey, fault)
      ensures ok ==> dotEnv == Some(EnvLine(apikey))
    {
      match fault {
        case NoFault =>
          dotEnv := Some(EnvLine(apikey));
          ok := true;
        case OpenFails =>
          ok := false;
        case WriteFails(kept) =>
          var line := EnvLine(apikey);
          dotEnv := Some(line[..Min(kept, |line| - 1)]);
          ok := false;
      }
    }

    /** `set_apikey`: write the file, ignore the outcome, set the variable and
        answer 200 with the CORS header. */
    method SetApiKey(request: SetApiKeyRequest, fault: FileFault) returns (r: Response)
      modifies this
      ensures State() == AfterSet(old(State()), request, fault)
      ensures env == Some(request.apikey)
      ensures r == SetApiKeyResponse()
    {
      var _ := WriteApiKeyToEnv(request.apikey, fault);
      env := Some(request.apikey);
      r := Response(200, Text(SetOkText), true);
    }

    /** `get_apikey`: answer from the environment variable. */
    method GetApiKey() returns (r: Response)
      ensures r == ApiKeyResponse(env)
      ensures r.status == 200 <==> env.Some?
      ensures env.Some? ==> r.body == Text(env.value) && r.cors
    {
      match env {
        case Some(apikey) =>
          r := Response(200, Text(apikey), true);
        case None =>
          r := Response(404, Text(KeyNotFound), false);
      }
    }
  }

  /** A client of the class: a set followed by a get returns the key just
      set, even when the file write failed, and a get on a store with no key
      is a 404. */
  method SetThenGetOnStore(fault: FileFault) returns (first: Response, second: Response)
    ensures first == Response(404, Text(KeyNotFound), false)
    ensures second == Response(200, Text("secret123"), true)
  {
    var store := new ApiKeyStore(None, None);
    first := store.GetApiKey();
    var _ := store.SetApiKey(SetApiKeyRequest("secret123"), fault);
    second := store.GetApiKey();
  }
}
