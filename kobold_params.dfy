/** The generation parameters of a text request (`self.params`), the
    parameters a style imposes, and the payload hashed for kudos accounting. */
module KoboldParams {

  /** A JSON value as it appears in a params dictionary. Nested objects are
      not needed by any operation here. */
  datatype Value =
    | Null
    | Bool(b: bool)
    | Int(i: int)
    | Real(r: real)
    | Str(s: string)
    | StrList(items: seq<string>)

  type Params = map<string, Value>

  /** `params.get("n", 1)`. */
  function RequestedN(params: Params): Value {
    if "n" in params then params["n"] else Int(1)
  }

  /** The params after a style is applied: a copy of the style's params whose
      "n" is the one the request asked for (1 when it asked for none). */
  function StyledParams(styleParams: Params, requestParams: Params): (r: Params)
    ensures r.Keys == styleParams.Keys + {"n"}
    ensures "n" in requestParams ==> r["n"] == requestParams["n"]
    ensures "n" !in requestParams ==> r["n"] == Int(1)
    ensures forall k :: k in styleParams && k != "n" ==> r[k] == styleParams[k]
  {
    styleParams["n" := RequestedN(requestParams)]
  }

  /** `get_hashed_params_dict` before hashing: a copy of the params with the
      key "models" set to the model list of the request's arguments. */
  function HashPayload(params: Params, argsModels: seq<string>): (r: Params)
    ensures r.Keys == params.Keys + {"models"}
    ensures r["models"] == StrList(argsModels)
    ensures forall k :: k in params && k != "models" ==> r[k] == params[k]
  {
    params["models" := StrList(argsModels)]
  }

  /** Two params dictionaries give the same hashed payload exactly when they
      agree everywhere but on "models": an entry "models" already in the
      params is overwritten and never reaches the hash. */
  lemma HashPayloadIgnoresModelsEntry(p1: Params, p2: Params, argsModels: seq<string>)
    ensures HashPayload(p1, argsModels) == HashPayload(p2, argsModels) <==> p1 - {"models"} == p2 - {"models"}
  {
    var h1, h2 := HashPayload(p1, argsModels), HashPayload(p2, argsModels);
    if p1 - {"models"} == p2 - {"models"} {
      forall k | k in h1.Keys
        ensures k in h2.Keys && h1[k] == h2[k]
      {
        if k != "models" {
          assert k in p1 - {"models"};
          assert (p1 - {"models"})[k] == (p2 - {"models"})[k];
        }
      }
      forall k | k in h2.Keys ensures k in h1.Keys {
        if k != "models" { assert k in p2 - {"models"}; }
      }
      assert h1 == h2;
    }
    if h1 == h2 {
      assert h1 - {"models"} == p1 - {"models"};
      assert h2 - {"models"} == p2 - {"models"};
    }
  }

  /** Requests with different model lists hash different payloads. */
  lemma HashPayloadSeparatesModels(params: Params, m1: seq<string>, m2: seq<string>)
    requires m1 != m2
    ensures HashPayload(params, m1) != HashPayload(params, m2)
  {
  }
}
