/**
 The proxy's compiled-in configuration (index.js:8-16): the Azure resource name,
 the API version, and `mapper`, the table from public model name to private
 deployment name.
 */
module Config {
  import opened Wrappers

  const ResourceName: string := "japan-east-01"
  const ApiVersion: string := "2023-05-15"

  /** `mapper`, as its two literal entries in the order they are written. */
  const Mapper: seq<(string, string)> := [("gpt-3.5-turbo", "jet-001"), ("gpt-4", "")]

  predicate IsKey(table: seq<(string, string)>, name: string) {
    exists i :: 0 <= i < |table| && table[i].0 == name
  }

  predicate DistinctKeys(table: seq<(string, string)>) {
    forall i, j :: 0 <= i < j < |table| ==> table[i].0 != table[j].0
  }

  /** Property lookup `table[name]`: the deployment stored under `name`, or `None` (undefined). */
  function Find(table: seq<(string, string)>, name: string): (r: Option<string>)
    ensures r.None? <==> !IsKey(table, name)
    ensures r.Some? ==> exists i :: 0 <= i < |table| && table[i] == (name, r.value)
  {
    if table == [] then None
    else if table[0].0 == name then Some(table[0].1)
    else
      var r := Find(table[1..], name);
      assert r.Some? ==> exists i :: 0 <= i < |table[1..]| && table[1..][i] == (name, r.value);
      assert !IsKey(table[1..], name) ==> !IsKey(table, name) by {
        if IsKey(table, name) {
          var i :| 0 <= i < |table| && table[i].0 == name;
          assert i > 0 && table[1..][i - 1].0 == name;
        }
      }
      r
  }

  /**
   `mapper[modelName] || ""`: the deployment name for a model, where a model that
   is undefined (`None`), is not a key, or is mapped to "" all give "".
   */
  function DeployName(model: Option<string>): (r: string)
    ensures r != "" ==> model.Some? && Find(Mapper, model.value) == Some(r)
  {
    match model
    case None => ""
    case Some(name) =>
      match Find(Mapper, name)
      case None => ""
      case Some(deployment) => deployment
  }

  /** With distinct keys, every entry is found under its own key. */
  lemma FindEntry(table: seq<(string, string)>, i: nat)
    requires DistinctKeys(table)
    requires i < |table|
    ensures Find(table, table[i].0) == Some(table[i].1)
  {
  }

  /**
   Exactly one public model is configured: "gpt-3.5-turbo", deployed as "jet-001".
   "gpt-4" is a key of `mapper` but maps to "" and so counts as not configured.
   */
  lemma ConfiguredModels(model: Option<string>)
    ensures DeployName(model) != "" <==> model == Some("gpt-3.5-turbo")
    ensures DeployName(Some("gpt-3.5-turbo")) == "jet-001"
    ensures DeployName(Some("gpt-4")) == ""
  {
  }
}
