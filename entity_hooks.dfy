/** np/hooks/generateEntityHooks.tsx: from an entity name and a path, an
    object of four hooks named after the entity. A hook is modelled by the
    call it makes into np/projects.tsx (which is not part of this model). */
module EntityHooks {
  import opened Wrappers
  import opened Text

  /** What calling one of the generated hooks does. */
  datatype ProjectCall =
    | ProjectGet(path: string, enabled: Option<bool>)   // `useProjectGetBase({ path, enabled })`
    | ProjectRequest(path: string, verb: string)        // `useProjectRequest({ path, method })`

  /** One generated hook. */
  datatype EntityHook = GetEntities(path: string) | RequestEntity(path: string, verb: string)
  {
    /** Calling the hook, with the `enabled` option of the list hook (the
        other three take no options). */
    function Call(enabled: Option<bool>): (c: ProjectCall)
      ensures GetEntities? ==> c == ProjectGet(path, enabled)
      ensures RequestEntity? ==> c == ProjectRequest(path, verb)
    {
      match this
      case GetEntities(p) => ProjectGet(p, enabled)
      case RequestEntity(p, v) => ProjectRequest(p, v)
    }
  }

  /** `name.charAt(0).toUpperCase() + name.slice(1)`: the first character
      upper-cased, the rest unchanged. */
  function Capitalize(name: string): (r: string)
    ensures |r| == |name|
    ensures name != "" ==> r[0] == UpperChar(name[0]) && r[1..] == name[1..]
  {
    if name == "" then "" else ToUpper(name[..1]) + name[1..]
  }

  function ListName(c: string): string { "use" + c + "s" }
  function AddName(c: string): string { "useAdd" + c }
  function UpdateName(c: string): string { "useUpdate" + c }
  function DeleteName(c: string): string { "useDelete" + c }

  /** Whatever the entity is called, the four hook names differ. */
  lemma HookNamesDistinct(c: string)
    ensures ListName(c) != AddName(c) && ListName(c) != UpdateName(c) && ListName(c) != DeleteName(c)
    ensures AddName(c) != UpdateName(c) && AddName(c) != DeleteName(c)
    ensures UpdateName(c) != DeleteName(c)
  {
    assert |ListName(c)| == |c| + 4 && |AddName(c)| == |c| + 6;
    assert |UpdateName(c)| == |c| + 9 && |DeleteName(c)| == |c| + 9;
    assert UpdateName(c)[3] == 'U' && DeleteName(c)[3] == 'D';
  }

  /** `generateEntityHooks({ entityName, path })`: exactly four hooks, named
      `use<C>s`, `useAdd<C>`, `useUpdate<C>` and `useDelete<C>` for the
      capitalized name `<C>`. All four work on `path`; calling the list hook
      forwards its `enabled` option, and calling add, update or delete makes a
      request hook for "post", "PATCH" or "delete", whatever is passed. */
  function GenerateEntityHooks(entityName: string, path: string): (m: map<string, EntityHook>)
    ensures var c := Capitalize(entityName);
      m.Keys == {ListName(c), AddName(c), UpdateName(c), DeleteName(c)} && |m| == 4
    ensures var c := Capitalize(entityName);
      m[ListName(c)] == GetEntities(path) &&
      m[AddName(c)] == RequestEntity(path, "post") &&
      m[UpdateName(c)] == RequestEntity(path, "PATCH") &&
      m[DeleteName(c)] == RequestEntity(path, "delete")
    ensures forall k :: k in m ==> m[k].path == path
    ensures var c := Capitalize(entityName);
      forall enabled: Option<bool> ::
        m[ListName(c)].Call(enabled) == ProjectGet(path, enabled) &&
        m[AddName(c)].Call(enabled) == ProjectRequest(path, "post") &&
        m[UpdateName(c)].Call(enabled) == ProjectRequest(path, "PATCH") &&
        m[DeleteName(c)].Call(enabled) == ProjectRequest(path, "delete")
  {
    var c := Capitalize(entityName);
    HookNamesDistinct(c);
    var m := map[ListName(c) := GetEntities(path),
                 AddName(c) := RequestEntity(path, "post"),
                 UpdateName(c) := RequestEntity(path, "PATCH"),
                 DeleteName(c) := RequestEntity(path, "delete")];
    assert |{ListName(c), AddName(c), UpdateName(c)}| == 3;
    assert |{ListName(c), AddName(c), UpdateName(c), DeleteName(c)}| == 4;
    m
  }
}
