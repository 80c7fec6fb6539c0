/**
 * Collection variables and the document information derived from them:
 * `get_collection_variable` and `get_document_info`.
 */
module Variables {
  import opened Wrappers
  import opened Postman

  /** The converter's `collection_variable` dictionary: key to value, either possibly `None`. */
  type VariableMap = map<Option<string>, Option<string>>

  /**
   * The dictionary after assigning `m[v.key] = v.value` for each variable in
   * list order. Its keys are the old keys and every listed key.
   */
  function WithVariables(m: VariableMap, vars: seq<Variable>): (r: VariableMap)
    ensures r.Keys == m.Keys + set i | 0 <= i < |vars| :: vars[i].key
  {
    if |vars| == 0 then m
    else
      var last := vars[|vars| - 1];
      var init := vars[..|vars| - 1];
      var r := WithVariables(m, init)[last.key := last.value];
      assert (set i | 0 <= i < |vars| :: vars[i].key)
          == (set i | 0 <= i < |init| :: init[i].key) + {last.key};
      r
  }

  /** The index of the last variable with key `k`, if any. */
  predicate IsLastWithKey(vars: seq<Variable>, i: int, k: Option<string>)
  {
    0 <= i < |vars| && vars[i].key == k && forall j :: i < j < |vars| ==> vars[j].key != k
  }

  /** When a key is listed several times, its last value wins. */
  lemma {:induction false} LastValueWins(m: VariableMap, vars: seq<Variable>, i: int, k: Option<string>)
    requires IsLastWithKey(vars, i, k)
    ensures k in WithVariables(m, vars)
    ensures WithVariables(m, vars)[k] == vars[i].value
  {
    if i < |vars| - 1 {
      LastValueWins(m, vars[..|vars| - 1], i, k);
    }
  }

  /** A key that no variable lists keeps its old value. */
  lemma {:induction false} UnlistedKeyKept(m: VariableMap, vars: seq<Variable>, k: Option<string>)
    requires k in m
    requires forall j :: 0 <= j < |vars| ==> vars[j].key != k
    ensures WithVariables(m, vars)[k] == m[k]
  {
    if |vars| > 0 {
      UnlistedKeyKept(m, vars[..|vars| - 1], k);
    }
  }

  /** The document's `HOST`: `variables['domain']` if present, else `http://localhost`. */
  function DocumentDomain(variables: VariableMap): Option<string>
  {
    if Some("domain") in variables then variables[Some("domain")] else Some("http://localhost")
  }

  /** Without a `domain` variable the host is `http://localhost`. */
  lemma DomainDefault(vars: seq<Variable>)
    requires forall j :: 0 <= j < |vars| ==> vars[j].key != Some("domain")
    ensures DocumentDomain(WithVariables(map[], vars)) == Some("http://localhost")
  {
  }

  /** With `domain` variables the host is the value of the last of them. */
  lemma DomainFromLastVariable(vars: seq<Variable>, i: int)
    requires IsLastWithKey(vars, i, Some("domain"))
    ensures DocumentDomain(WithVariables(map[], vars)) == vars[i].value
  {
    LastValueWins(map[], vars, i, Some("domain"));
  }

  /** The document's title: `info.name`, or `None` when either is missing. */
  function DocumentName(c: Collection): Option<string>
  {
    match c.info
    case None => None
    case Some(info) => info.name
  }

  /** The document's description: the top-level `description`, default `''`. */
  function DocumentDescription(c: Collection): string
  {
    c.description.GetOr("")
  }
}
