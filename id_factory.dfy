/** The name interner `IdFactory<Base>` and the `Id<Base>` conversions.
    Each of the four namespaces (timers, steps, objects, values) is one `IdFactory` object. */
module IdFactories {
  import opened Basics

  /** Position of the first occurrence of `name` in `names`, or `|names|` when it is absent:
      the result of the linear search in `getID`. */
  function IndexOf(names: seq<string>, name: string): (i: nat)
    ensures i <= |names|
    ensures i < |names| <==> name in names
    ensures i < |names| ==> names[i] == name
    ensures forall j :: 0 <= j < i ==> names[j] != name
  {
    if |names| == 0 then 0
    else if names[0] == name then 0
    else 1 + IndexOf(names[1..], name)
  }

  /** `getName` on a given table: the name stored at `id`, or "" when `id` is out of range. */
  function NameAt(names: seq<string>, id: nat): string
  {
    if id < |names| then names[id] else ""
  }

  class IdFactory {
    /** The names; an identifier is an index into this list. */
    var idsList: seq<string>

    /** Slot 0 holds "0", names are never empty and never repeated. */
    ghost predicate Valid()
      reads this
    {
      && |idsList| >= 1
      && idsList[0] == "0"
      && NoDup(idsList)
      && forall i :: 0 <= i < |idsList| ==> idsList[i] != ""
    }

    constructor ()
      ensures Valid() && idsList == ["0"]
    {
      idsList := ["0"];
    }

    /** `getName`: the name of `id`, empty exactly when `id` was never issued. */
    function GetName(id: nat): (r: string)
      requires Valid()
      reads this
      ensures r == "" <==> id >= |idsList|
      ensures id < |idsList| ==> r == idsList[id]
    {
      NameAt(idsList, id)
    }

    /** `getLastID`: the highest identifier issued so far. */
    function GetLastID(): (r: nat)
      requires Valid()
      reads this
      ensures GetName(r) != ""
      ensures forall id :: id > r ==> GetName(id) == ""
    {
      |idsList| - 1
    }

    /** `getID`: the identifier of `name`, interning it when it is new; the empty name is 0
        and is never interned. Identifiers already issued keep their names. */
    method GetID(name: string) returns (i: nat)
      requires Valid()
      modifies this
      ensures Valid()
      ensures old(idsList) <= idsList
      ensures name == "" ==> i == 0 && idsList == old(idsList)
      ensures name != "" && name in old(idsList) ==>
                idsList == old(idsList) && i == IndexOf(old(idsList), name)
      ensures name != "" && name !in old(idsList) ==>
                idsList == old(idsList) + [name] && i == old(GetLastID()) + 1
      ensures name != "" ==> GetName(i) == name
    {
      if name == "" {
        return 0;
      }
      i := 0;
      while i < |idsList| && idsList[i] != name
        invariant 0 <= i <= |idsList|
        invariant forall j :: 0 <= j < i ==> idsList[j] != name
      {
        i := i + 1;
      }
      if i < |idsList| {
        return;
      }
      idsList := idsList + [name];
    }
  }

  /** `Id<Base>::Id(const std::string&)`: 0 for the empty string, otherwise `getID`. */
  method IdFromString(f: IdFactory, s: string) returns (id: nat)
    requires f.Valid()
    modifies f
    ensures f.Valid()
    ensures old(f.idsList) <= f.idsList
    ensures s == "" ==> id == 0 && f.idsList == old(f.idsList)
    ensures s != "" ==> f.GetName(id) == s
    ensures f.idsList == if s == "" || s in old(f.idsList) then old(f.idsList) else old(f.idsList) + [s]
  {
    id := 0;
    if s != "" {
      id := f.GetID(s);
    }
  }

  /** `Id<Base>::Id(const char*)`: a null pointer (`None`) or an empty string gives 0. */
  method IdFromCString(f: IdFactory, s: Option<string>) returns (id: nat)
    requires f.Valid()
    modifies f
    ensures f.Valid()
    ensures old(f.idsList) <= f.idsList
    ensures (s.None? || s.value == "") ==> id == 0 && f.idsList == old(f.idsList)
    ensures s.Some? && s.value != "" ==> f.GetName(id) == s.value
    ensures f.idsList == if s.None? || s.value == "" || s.value in old(f.idsList) then old(f.idsList)
                         else old(f.idsList) + [s.value]
  {
    id := 0;
    if s.Some? && s.value != "" {
      id := f.GetID(s.value);
    }
  }

  /** `Id<Base>::operator std::string`: agrees with `getName` on every identifier, because
      slot 0 of the table holds "0". */
  function IdToString(f: IdFactory, id: nat): (r: string)
    requires f.Valid()
    reads f
    ensures r == f.GetName(id)
    ensures id == 0 ==> r == "0"
  {
    if id == 0 then "0" else f.GetName(id)
  }
}
