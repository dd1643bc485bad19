/**
 `handleModels` (index.js:133-167): one list entry per key of `mapper`, in the
 order `for...in` visits the keys, each with fixed placeholder metadata and with
 `id` and `root` equal to the key. The deployment names play no part, so a key
 mapped to "" is listed too.
 */
module ModelList {
  import opened Wrappers

  datatype Permission = Permission(
    id: string, objectType: string, created: int,
    allowCreateEngine: bool, allowSampling: bool, allowLogprobs: bool,
    allowSearchIndices: bool, allowView: bool, allowFineTuning: bool,
    organization: string, group: Option<string>, isBlocking: bool)

  datatype ModelEntry = ModelEntry(
    id: string, objectType: string, created: int, ownedBy: string,
    permission: seq<Permission>, root: string, parent: Option<string>)

  /** The top-level `{object: "list", data: [...]}` value that is serialised as the body. */
  datatype Listing = Listing(objectType: string, data: seq<ModelEntry>)

  const Placeholder: Permission := Permission(
    "modelperm-M56FXnG1AsIr3SXq8BYPvXJA", "model_permission", 1679602088,
    false, true, true, false, true, false, "*", None, false)

  /** The object pushed for `key`. */
  function EntryFor(key: string): (e: ModelEntry)
    ensures e.id == key && e.root == key && e.parent.None?
  {
    ModelEntry(key, "model", 1677610602, "openai", [Placeholder], key, None)
  }

  /** The entry list for a table, one per entry, in table order. */
  function Entries(table: seq<(string, string)>): (r: seq<ModelEntry>)
    ensures |r| == |table|
  {
    if table == [] then [] else Entries(table[..|table| - 1]) + [EntryFor(table[|table| - 1].0)]
  }

  /** Exactly one entry per key, in order, each with `id` and `root` equal to its key. */
  lemma {:induction false} EntriesShape(table: seq<(string, string)>)
    ensures |Entries(table)| == |table|
    ensures forall i :: 0 <= i < |table| ==> Entries(table)[i] == EntryFor(table[i].0)
  {
    if table != [] {
      var init := table[..|table| - 1];
      EntriesShape(init);
      forall i | 0 <= i < |table| ensures Entries(table)[i] == EntryFor(table[i].0) {
        if i < |init| {
          assert init[i] == table[i];
        }
      }
    }
  }

  /** The deployment names do not matter: tables with the same keys give the same list. */
  lemma {:induction false} EntriesIgnoreDeployments(t1: seq<(string, string)>, t2: seq<(string, string)>)
    requires |t1| == |t2|
    requires forall i :: 0 <= i < |t1| ==> t1[i].0 == t2[i].0
    ensures Entries(t1) == Entries(t2)
  {
    EntriesShape(t1);
    EntriesShape(t2);
  }

  /** The `for...in` loop with `data.data.push(...)`. */
  method BuildEntries(table: seq<(string, string)>) returns (data: seq<ModelEntry>)
    ensures data == Entries(table)
    ensures |data| == |table|
    ensures forall i :: 0 <= i < |table| ==> data[i].id == table[i].0 && data[i].root == table[i].0
  {
    data := [];
    var k := 0;
    while k < |table|
      invariant 0 <= k <= |table|
      invariant data == Entries(table[..k])
    {
      assert table[..k + 1][..k] == table[..k];
      data := data + [EntryFor(table[k].0)];
      k := k + 1;
    }
    assert table[..k] == table;
    EntriesShape(table);
  }
}
