/**
  The request-building rules of the client page: how the backend base URL is
  completed with a scheme, what the planning request carries, which keys go
  into the execute request, and when the remembered contract address is
  overwritten by a backend reply.
*/
module App {
  import opened Wrappers
  import opened Text
  import opened Json
  import IntentRouter

  // ---------------------------------------------------------------------
  // Backend base URL

  /** The client's completion of the configured base URL: anything starting
      with "http" is kept; otherwise a dotted name other than localhost gets
      "https://" and everything else "http://". */
  function NormalizeBackend(url: string): (r: string)
    ensures "http" <= r
    ensures |url| <= |r| && r[|r| - |url|..] == url
    ensures "http" <= url ==> r == url
  {
    if "http" <= url then url
    else if Contains(url, ".") && !Contains(url, "localhost") then "https://" + url
    else "http://" + url
  }

  /** Which scheme a URL without "http" in front receives. */
  lemma BackendScheme(url: string)
    requires !("http" <= url)
    ensures Contains(url, ".") && !Contains(url, "localhost") ==> NormalizeBackend(url) == "https://" + url
    ensures !Contains(url, ".") || Contains(url, "localhost") ==> NormalizeBackend(url) == "http://" + url
  {
  }

  /** Completing an already completed URL changes nothing. */
  lemma NormalizeBackendIdempotent(url: string)
    ensures NormalizeBackend(NormalizeBackend(url)) == NormalizeBackend(url)
  {
  }

  /** A URL that names its scheme explicitly. */
  predicate HasScheme(url: string) {
    "http://" <= url || "https://" <= url
  }

  /** A host whose name merely begins with the letters "http" is kept as it
      is, so the client ends up with a base URL that has no scheme, where a
      scheme was evidently meant to be added. */
  lemma HttpNamedHostKeepsNoScheme(u: string)
    requires "http" <= u && !HasScheme(u)
    ensures NormalizeBackend(u) == u
    ensures !HasScheme(NormalizeBackend(u))
    ensures Contains(u, ".") && !Contains(u, "localhost") ==> NormalizeBackendWithScheme(u) == "https://" + u
    ensures !Contains(u, ".") || Contains(u, "localhost") ==> NormalizeBackendWithScheme(u) == "http://" + u
  {
  }

  /** One such host: "httpbin.org". */
  lemma HttpbinKeepsNoScheme()
    ensures NormalizeBackend("httpbin.org") == "httpbin.org"
    ensures !HasScheme(NormalizeBackend("httpbin.org"))
    ensures NormalizeBackendWithScheme("httpbin.org") == "https://" + "httpbin.org"
  {
    var u := "httpbin.org";
    assert "http" <= u;
    assert !HasScheme(u) by {
      assert u[4] == 'b';
      assert !("https://" <= u) by { assert "https://"[4] == 's'; }
      assert !("http://" <= u) by { assert "http://"[4] == ':'; }
    }
    assert Contains(u, ".") by {
      assert u[7..] == ".org";
      ContainsInSuffix(u, 7, ".");
    }
    assert !Contains(u, "localhost") by {
      MissingCharNotContained(u, "localhost", 0);
    }
    HttpNamedHostKeepsNoScheme(u);
  }

  /** The completion as intended: keep a URL only when it already names its
      scheme. The result always names one and still ends with the input. */
  function NormalizeBackendWithScheme(url: string): (r: string)
    ensures HasScheme(r)
    ensures |url| <= |r| && r[|r| - |url|..] == url
    ensures HasScheme(url) ==> r == url
  {
    if HasScheme(url) then url
    else if Contains(url, ".") && !Contains(url, "localhost") then "https://" + url
    else "http://" + url
  }

  /** The intended completion is idempotent and agrees with the client's
      wherever the client's test is not fooled by the host name. */
  lemma NormalizeBackendWithSchemeAgrees(url: string)
    ensures NormalizeBackendWithScheme(NormalizeBackendWithScheme(url)) == NormalizeBackendWithScheme(url)
    ensures HasScheme(url) || !("http" <= url) ==> NormalizeBackendWithScheme(url) == NormalizeBackend(url)
  {
    if HasScheme(url) {
      assert "http" <= url by {
        if "http://" <= url { assert url[..4] == "http://"[..4]; }
        else { assert url[..4] == "https://"[..4]; }
      }
    }
  }

  // ---------------------------------------------------------------------
  // Planning request

  /** The choices of the chain selector. */
  const ChainSelectorOptions: seq<string> := ["default", "celo", "aurora", "harmony"]

  /** The body of the planning request: the prompt, and the chain chosen in
      the selector, or null for "default". */
  function PlanPayload(prompt: string, selection: string): (p: map<string, Value>)
    ensures p.Keys == {"prompt", "chain"}
    ensures p["prompt"] == Str(prompt)
    ensures p["chain"] == Null <==> selection == "default"
    ensures selection != "default" ==> p["chain"] == Str(selection)
  {
    map["prompt" := Str(prompt), "chain" := if selection == "default" then Null else Str(selection)]
  }

  /** The selector choice a planning request stands for. */
  function SelectionOf(chain: Value): string {
    if chain.Str? then chain.s else "default"
  }

  /** The planning request loses nothing: the selector choice can be read
      back from it, and every choice the selector offers sends either no
      chain or one of the router's chain names. */
  lemma PlanPayloadRoundTrip(prompt: string, selection: string)
    ensures SelectionOf(PlanPayload(prompt, selection)["chain"]) == selection
    ensures selection in ChainSelectorOptions ==>
      var c := PlanPayload(prompt, selection)["chain"];
      c == Null || (c.Str? && c.s in IntentRouter.ChainNames)
  {
  }

  // ---------------------------------------------------------------------
  // Execute request

  const DeployContractTool: string := "DEPLOY_CONTRACT"
  const ContractCallTool: string := "CONTRACT_CALL"

  /** The SimpleStorage ABI the page ships, reduced to the names and kinds of
      its three entries. */
  const SimpleStorageAbi: Value := Arr([
    Obj(map["name" := Str("set"), "type" := Str("function")]),
    Obj(map["name" := Str("get"), "type" := Str("function")]),
    Obj(map["name" := Str("ValueChanged"), "type" := Str("event")])
  ])

  /** The SimpleStorage creation bytecode the page ships, by its leading bytes. */
  const SimpleStorageBytecode: string := "0x608060405234801561001057600080fd5b50"

  /** Why the page builds no execute request. */
  datatype PlanError =
    | NoPlan              // no plan, or an empty one: the section is not shown
    | PlanNotAnObject     // the plan cannot be indexed by "tool"
    | PlanWithoutTool     // the plan object has no "tool" key

  /** The keys an execute request may carry. */
  const ExecuteKeys: set<string> := {"plan", "approve", "abi", "bytecode", "address"}

  /** Builds the execute request key by key, as the page does once "Simulate
      & Execute" is pressed. `enteredAddress` is the text of the contract
      address field, which the page shows only for a contract call. */
  method BuildExecutePayload(plan: Value, approve: bool, enteredAddress: string)
    returns (r: Result<map<string, Value>, PlanError>)
    ensures !Truthy(plan) ==> r == Err(NoPlan)
    ensures Truthy(plan) && !plan.Obj? ==> r == Err(PlanNotAnObject)
    ensures plan.Obj? && Truthy(plan) && "tool" !in plan.fields ==> r == Err(PlanWithoutTool)
    ensures r.Ok? <==> plan.Obj? && "tool" in plan.fields
    ensures r.Ok? ==>
      var p := r.value;
      var tool := plan.fields["tool"];
      && p.Keys <= ExecuteKeys
      && "plan" in p && p["plan"] == plan
      && "approve" in p && p["approve"] == Bool(approve)
      && ("abi" in p <==> tool == Str(DeployContractTool))
      && ("abi" in p ==> p["abi"] == SimpleStorageAbi)
      && ("bytecode" in p <==> tool == Str(DeployContractTool))
      && ("bytecode" in p ==> p["bytecode"] == Str(SimpleStorageBytecode))
      && ("address" in p <==> tool == Str(ContractCallTool) && enteredAddress != [])
      && ("address" in p ==> p["address"] == Str(enteredAddress))
      && !("abi" in p && "address" in p)
  {
    if !Truthy(plan) {
      return Err(NoPlan);
    }
    if !plan.Obj? {
      return Err(PlanNotAnObject);
    }
    if "tool" !in plan.fields {
      return Err(PlanWithoutTool);
    }
    var tool := plan.fields["tool"];

    var abi: Value := Null;
    var bytecode: Value := Null;
    var address: Value := Null;
    if tool == Str(DeployContractTool) {
      abi := SimpleStorageAbi;
      bytecode := Str(SimpleStorageBytecode);
    }
    if tool == Str(ContractCallTool) {
      address := Str(enteredAddress);
    }

    var payload: map<string, Value> := map["plan" := plan, "approve" := Bool(approve)];
    if Truthy(abi) {
      payload := payload["abi" := abi];
    }
    if Truthy(bytecode) {
      payload := payload["bytecode" := bytecode];
    }
    if Truthy(address) {
      payload := payload["address" := address];
    }
    return Ok(payload);
  }

  // ---------------------------------------------------------------------
  // Remembered contract address

  /** What a backend reply to the execute request does to the remembered
      address. */
  datatype Capture =
    | Keep               // the reply carries no deployed address
    | Store(addr: Value) // the reply's result object names an address
    | Raise              // the page's membership test or lookup fails on this reply

  /** The capture rule: only a reply object whose "result" is an object with
      an "address" key replaces the remembered address. A reply that is not
      an object either fails the membership test (null, booleans, numbers) or
      passes it and then fails the lookup (a list holding the string
      "result", a string containing "result"), or is left alone. */
  function CaptureRule(data: Value): (c: Capture)
    ensures c.Store? <==>
      data.Obj? && "result" in data.fields && data.fields["result"].Obj? &&
      "address" in data.fields["result"].fields
    ensures c.Store? ==> c.addr == data.fields["result"].fields["address"]
    ensures c == Raise <==>
      data.Null? || data.Bool? || data.Num? ||
      (data.Arr? && Str("result") in data.items) ||
      (data.Str? && Contains(data.s, "result"))
  {
    match data
    case Obj(f) =>
      if "result" in f && f["result"].Obj? && "address" in f["result"].fields
      then Store(f["result"].fields["address"]) else Keep
    case Arr(items) => if Str("result") in items then Raise else Keep
    case Str(s) => if Contains(s, "result") then Raise else Keep
    case _ => Raise
  }

  /** Of an object reply the rule reads only the "result" entry: two replies
      that agree on it have the same effect, and a reply whose "result" is
      not an object with an "address" key leaves the remembered address
      alone. */
  lemma CaptureReadsOnlyResult(d1: Value, d2: Value)
    requires d1.Obj? && d2.Obj?
    requires ("result" in d1.fields) == ("result" in d2.fields)
    requires "result" in d1.fields ==> d1.fields["result"] == d2.fields["result"]
    ensures CaptureRule(d1) == CaptureRule(d2)
    ensures CaptureRule(d1) != Raise
    ensures CaptureRule(d1).Store? <==>
      "result" in d1.fields && d1.fields["result"].Obj? && "address" in d1.fields["result"].fields
  {
  }

  /** The page's session state that outlives one run of the script. */
  class Session {
    /** The remembered contract address; the page starts it empty. */
    var storageAddr: Value

    constructor ()
      ensures storageAddr == Str("")
    {
      storageAddr := Str("");
    }

    /** Applies a successful execute reply to the remembered address.
        `raised` reports that the page's test failed on this reply, in which
        case nothing is changed. */
    method CaptureDeployedAddress(data: Value) returns (raised: bool)
      modifies this`storageAddr
      ensures raised <==> CaptureRule(data) == Raise
      ensures storageAddr == if CaptureRule(data).Store? then CaptureRule(data).addr else old(storageAddr)
    {
      var hasResult: bool;
      match data {
        case Obj(f) => hasResult := "result" in f;
        case Arr(items) => hasResult := Str("result") in items;
        case Str(s) => hasResult := Contains(s, "result");
        case _ => return true;
      }
      if !hasResult {
        return false;
      }
      if !data.Obj? {
        return true;
      }
      var result := data.fields["result"];
      if result.Obj? && "address" in result.fields {
        storageAddr := result.fields["address"];
      }
      return false;
    }
  }
}
