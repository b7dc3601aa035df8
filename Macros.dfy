/** Creation of a macro through the macro router (Api/routers/macros.py):
    the delay-count rule, then resolution of the command and scene ids. */
module Macros {
  import opened Wrappers
  import opened Catalog
  import opened Errors

  /** The posted body of a new macro. */
  datatype MacroPost = MacroPost(name: Option<string>, commandIds: seq<int>, delays: seq<int>, sceneIds: seq<int>)

  /** The id names a row among `keys`; database ids are never negative, so
      a negative id names none. */
  predicate Has(keys: set<nat>, id: int)
  {
    id >= 0 && id as nat in keys
  }

  /** `k` is the position of the first id in `ids` that has no entry in `keys`. */
  predicate FirstMissing(ids: seq<int>, keys: set<nat>, k: int)
  {
    0 <= k < |ids| && !Has(keys, ids[k]) && forall j :: 0 <= j < k ==> Has(keys, ids[j])
  }

  predicate AllPresent(ids: seq<int>, keys: set<nat>)
  {
    forall k :: 0 <= k < |ids| ==> Has(keys, ids[k])
  }

  /** `create_macro`: rejects a post unless it has exactly one delay fewer
      than commands (before any lookup), then resolves every command id in
      order and every scene id, failing on the first that is missing. The new
      macro's id is the one the database assigns, given as `newId`. */
  method CreateMacro(post: MacroPost, catalog: Catalog, newId: nat) returns (r: Result<(Macro, seq<Scene>), Error>)
    ensures |post.commandIds| != |post.delays| + 1 ==> r == Err(HttpError(400, DelayCountMismatch))
    ensures post.commandIds == [] ==> r.Err?
    ensures forall k :: |post.commandIds| == |post.delays| + 1 && FirstMissing(post.commandIds, catalog.commands.Keys, k)
              ==> r == Err(HttpError(404, CommandNotFound(post.commandIds[k])))
    ensures forall k :: |post.commandIds| == |post.delays| + 1 && AllPresent(post.commandIds, catalog.commands.Keys)
              && FirstMissing(post.sceneIds, catalog.scenes.Keys, k)
              ==> r == Err(HttpError(404, SceneNotFound(post.sceneIds[k])))
    ensures r.Ok? <==> (&& |post.commandIds| == |post.delays| + 1
                        && AllPresent(post.commandIds, catalog.commands.Keys)
                        && AllPresent(post.sceneIds, catalog.scenes.Keys))
    ensures r.Ok? ==>
              var (m, scenes) := r.value;
              && m.id == newId && m.name == post.name && m.delays == post.delays
              && WellFormedMacro(m)
              && |m.commands| == |post.commandIds|
              && (forall k :: 0 <= k < |m.commands| ==> m.commands[k] == catalog.commands[post.commandIds[k] as nat])
              && |scenes| == |post.sceneIds|
              && (forall k :: 0 <= k < |scenes| ==> scenes[k] == catalog.scenes[post.sceneIds[k] as nat])
  {
    if |post.commandIds| != |post.delays| + 1 {
      return Err(HttpError(400, DelayCountMismatch));
    }
    var commands: seq<Command> := [];
    for i := 0 to |post.commandIds|
      invariant |commands| == i
      invariant forall k :: 0 <= k < i ==>
                  Has(catalog.commands.Keys, post.commandIds[k]) && commands[k] == catalog.commands[post.commandIds[k] as nat]
    {
      var commandId := post.commandIds[i];
      if commandId < 0 || commandId as nat !in catalog.commands {
        assert FirstMissing(post.commandIds, catalog.commands.Keys, i);
        return Err(HttpError(404, CommandNotFound(commandId)));
      }
      commands := commands + [catalog.commands[commandId as nat]];
    }
    var scenes: seq<Scene> := [];
    for i := 0 to |post.sceneIds|
      invariant |scenes| == i
      invariant forall k :: 0 <= k < i ==>
                  Has(catalog.scenes.Keys, post.sceneIds[k]) && scenes[k] == catalog.scenes[post.sceneIds[k] as nat]
    {
      var sceneId := post.sceneIds[i];
      if sceneId < 0 || sceneId as nat !in catalog.scenes {
        assert FirstMissing(post.sceneIds, catalog.scenes.Keys, i);
        return Err(HttpError(404, SceneNotFound(sceneId)));
      }
      scenes := scenes + [catalog.scenes[sceneId as nat]];
    }
    return Ok((Macro(newId, post.name, commands, post.delays), scenes));
  }
}
