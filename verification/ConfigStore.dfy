/**
 The settings tree of libconfig.c as a store of numbered settings with parent
 links and element buffers, and the operations that build it.
 */
module ConfigStore {
  import opened Options

  type Id = nat

  datatype Kind =
    NoneKind | GroupKind | IntKind | Int64Kind | FloatKind | StringKind | BoolKind | ArrayKind | ListKind

  /** The value union; Zero is freshly allocated (all bytes zero). */
  datatype Payload =
    | Zero
    | IntVal(ival: int)
    | Int64Val(llval: int)
    | FloatVal(text: string)
    | StringVal(sval: Option<string>)
    | Elements(ids: seq<Id>, capacity: nat)

  const FORMAT_DEFAULT := 0
  const FORMAT_HEX := 1
  const CHUNK_SIZE := 16

  datatype Setting = Setting(
    name: Option<string>, kind: Kind, payload: Payload, format: int, parent: Option<Id>)

  datatype Store = Store(nodes: map<Id, Setting>, next: Id)

  predicate Aggregate(k: Kind) { k.GroupKind? || k.ArrayKind? || k.ListKind? }

  function Children(s: Setting): seq<Id>
  {
    if s.payload.Elements? then s.payload.ids else []
  }

  /** __config_list_add: grow by a chunk whenever the length is a multiple of the chunk size. */
  function ListAdd(p: Payload, id: Id): Payload
  {
    var ids := if p.Elements? then p.ids else [];
    var capacity := if p.Elements? then p.capacity else 0;
    Elements(ids + [id], if |ids| % CHUNK_SIZE == 0 then |ids| + CHUNK_SIZE else capacity)
  }

  // Names.

  predicate IsAlpha(c: char) { 'A' <= c <= 'Z' || 'a' <= c <= 'z' }
  predicate IsDigit(c: char) { '0' <= c <= '9' }
  predicate NameStart(c: char) { IsAlpha(c) || c == '*' }
  predicate NamePart(c: char) { IsAlpha(c) || IsDigit(c) || c == '*' || c == '_' || c == '-' }

  /** __config_validate_name */
  predicate ValidName(name: string)
  {
    name != "" && NameStart(name[0]) && forall i :: 1 <= i < |name| ==> NamePart(name[i])
  }

  predicate IsPathToken(c: char) { c == ':' || c == '.' || c == '/' }

  /** The end of the first path component. */
  predicate Ends(s: string) { s == "" || IsPathToken(s[0]) }

  /** __config_name_compare: negative, zero or positive. */
  function NameCompare(a: string, b: string): int
  {
    if Ends(a) && Ends(b) then 0
    else if Ends(a) then -1
    else if Ends(b) then 1
    else if a[0] < b[0] then -1
    else if a[0] > b[0] then 1
    else NameCompare(a[1..], b[1..])
  }

  predicate NoPath(s: string) { forall i :: 0 <= i < |s| ==> !IsPathToken(s[i]) }

  lemma ValidHasNoPath(s: string)
    requires ValidName(s)
    ensures NoPath(s)
  {
  }

  /** Names without path tokens compare equal exactly when they are equal. */
  lemma {:induction false} CompareEqual(a: string, b: string)
    requires NoPath(a) && NoPath(b)
    ensures NameCompare(a, b) == 0 <==> a == b
    decreases |a|
  {
    if a != "" && b != "" && a[0] == b[0] {
      assert a == [a[0]] + a[1..] && b == [b[0]] + b[1..];
      CompareEqual(a[1..], b[1..]);
    }
  }

  /** __config_list_search: the position of the first element whose name matches, or the length. */
  function Search(st: Store, ids: seq<Id>, name: string): (k: nat)
    ensures k <= |ids|
    ensures k < |ids| ==> ids[k] in st.nodes && st.nodes[ids[k]].name.Some?
                          && NameCompare(name, st.nodes[ids[k]].name.value) == 0
    ensures forall j :: 0 <= j < k && ids[j] in st.nodes && st.nodes[ids[j]].name.Some? ==>
              NameCompare(name, st.nodes[ids[j]].name.value) != 0
  {
    if ids == [] then 0
    else if ids[0] in st.nodes && st.nodes[ids[0]].name.Some?
            && NameCompare(name, st.nodes[ids[0]].name.value) == 0 then 0
    else 1 + Search(st, ids[1..], name)
  }

  /** config_setting_get_member */
  function GetMember(st: Store, id: Id, name: string): Option<Id>
    requires id in st.nodes
  {
    var s := st.nodes[id];
    if !s.kind.GroupKind? then None
    else
      var k := Search(st, Children(s), name);
      if k < |Children(s)| then Some(Children(s)[k]) else None
  }

  /** config_setting_create under an aggregate parent. */
  function Create(st: Store, parent: Id, name: Option<string>, kind: Kind): Store
    requires parent in st.nodes
  {
    var p := st.nodes[parent];
    var child := Setting(name, kind, Zero, FORMAT_DEFAULT, Some(parent));
    Store(st.nodes[parent := p.(payload := ListAdd(p.payload, st.next))][st.next := child], st.next + 1)
  }

  predicate HasNamed(st: Store, ids: seq<Id>)
  {
    exists i :: 0 <= i < |ids| && ids[i] in st.nodes && st.nodes[ids[i]].name.Some?
  }

  /**
   config_setting_add; on success the new setting has the id st.next. A null name
   passes the search of a group without named members; against a named member it
   would be dereferenced, which is taken here as a refusal.
   */
  function Add(st: Store, parent: Id, name: Option<string>, kind: Kind): Option<Store>
    requires parent in st.nodes
  {
    var p := st.nodes[parent];
    var name' := if p.kind.ArrayKind? || p.kind.ListKind? then None else name;
    if name'.Some? && !ValidName(name'.value) then None
    else if p.kind.GroupKind? && name'.None? && HasNamed(st, Children(p)) then None
    else if p.kind.GroupKind? && name'.Some? && GetMember(st, parent, name'.value).Some? then None
    else if !Aggregate(p.kind) then None
    else Some(Create(st, parent, name', kind))
  }

  /** __config_vector_checktype */
  predicate CheckType(st: Store, vector: Id, kind: Kind)
    requires vector in st.nodes
  {
    var v := st.nodes[vector];
    Children(v) == [] || v.kind.ListKind?
    || (Children(v)[0] in st.nodes && st.nodes[Children(v)[0]].kind == kind)
  }

  /** Storing a scalar in a setting of its own kind (auto-conversion is off). */
  function Put(st: Store, id: Id, kind: Kind, payload: Payload, format: int): Store
    requires id in st.nodes
  {
    var s := st.nodes[id];
    if s.kind.NoneKind? || s.kind == kind then
      st.(nodes := st.nodes[id := s.(kind := kind, payload := payload, format := format)])
    else st
  }

  /** config_setting_set_*_elem with a negative index: append a scalar to an array or list. */
  function Append(st: Store, vector: Id, kind: Kind, payload: Payload, format: int): Option<Store>
    requires vector in st.nodes
  {
    var v := st.nodes[vector];
    if !v.kind.ArrayKind? && !v.kind.ListKind? then None
    else if !CheckType(st, vector, kind) then None
    else Some(Put(Create(st, vector, None, kind), st.next, kind, payload, format))
  }

  /** config_init: an empty root group. */
  const EMPTY: Store := Store(map[0 := Setting(None, GroupKind, Zero, FORMAT_DEFAULT, None)], 1)
}
