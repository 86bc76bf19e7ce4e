/**
 config_t as an object: the calls of libconfig.c that search and change the tree
 in place, with their loops, proved against the edits on values.
 */
module ConfigObject {
  import opened Options
  import opened ConfigStore
  import opened ConfigMeaning
  import opened ConfigList
  import opened ConfigTree
  import opened ConfigRemoval
  import opened ConfigEdits
  import opened ConfigEffects

  /** __config_name_compare */
  method CompareNamesLoop(a: string, b: string) returns (r: int)
    ensures r == NameCompare(a, b)
  {
    var p := 0;
    assert a[0..] == a && b[0..] == b;
    while true
      invariant p <= |a| && p <= |b| && NameCompare(a, b) == NameCompare(a[p..], b[p..])
      decreases |a| - p
    {
      var pd := p == |a| || IsPathToken(a[p]);
      var qd := p == |b| || IsPathToken(b[p]);
      if pd && qd {
        return 0;
      } else if pd {
        return -1;
      } else if qd {
        return 1;
      } else if a[p] < b[p] {
        return -1;
      } else if a[p] > b[p] {
        return 1;
      }
      assert a[p..][1..] == a[p + 1..] && b[p..][1..] == b[p + 1..];
      p := p + 1;
    }
  }

  /** __config_validate_name */
  method ValidateName(name: string) returns (ok: bool)
    ensures ok == ValidName(name)
  {
    if |name| == 0 {
      return false;
    }
    if !IsAlpha(name[0]) && name[0] != '*' {
      return false;
    }
    var p := 1;
    while p < |name|
      invariant 1 <= p <= |name|
      invariant forall i :: 1 <= i < p ==> NamePart(name[i])
    {
      if !(IsAlpha(name[p]) || IsDigit(name[p]) || name[p] == '*' || name[p] == '_' || name[p] == '-') {
        return false;
      }
      p := p + 1;
    }
    return true;
  }

  class Config {
    var store: Store

    ghost predicate Valid()
      reads this
    {
      Tree(store)
    }

    /** config_init */
    constructor ()
      ensures Valid() && store == EMPTY
    {
      store := EMPTY;
      EmptyTree();
    }

    /** __config_list_search: the first element whose name matches. */
    method ListSearch(ids: seq<Id>, name: string) returns (idx: Option<nat>)
      requires forall k :: k in ids ==> k in store.nodes
      ensures
        var k := Search(store, ids, name);
        idx == if k < |ids| then Some(k) else None
    {
      var i := 0;
      assert ids[0..] == ids;
      while i < |ids|
        invariant 0 <= i <= |ids|
        invariant Search(store, ids, name) == i + Search(store, ids[i..], name)
      {
        assert ids[i] in ids;
        var s := store.nodes[ids[i]];
        if s.name.Some? {
          var c := CompareNamesLoop(name, s.name.value);
          if c == 0 {
            return Some(i);
          }
        }
        assert ids[i..][1..] == ids[i + 1..];
        i := i + 1;
      }
      return None;
    }

    /** config_setting_index: the position in the parent's list, -1 for the root. */
    method Index(setting: Id) returns (idx: int)
      requires Valid() && setting in store.nodes
      ensures setting == 0 ==> idx == -1
      ensures setting != 0 ==>
        store.nodes[setting].parent.Some? && store.nodes[setting].parent.value in store.nodes
        && idx >= 0 && GetElem(store, store.nodes[setting].parent.value, idx) == Some(setting)
    {
      var s := store.nodes[setting];
      if s.parent.None? {
        assert setting != 0 ==> LinkedNode(store, setting);
        return -1;
      }
      assert LinkedNode(store, setting);
      var parent := s.parent.value;
      assert NodeOk(store, parent);
      var ids := Children(store.nodes[parent]);
      var i := 0;
      while i < |ids|
        invariant 0 <= i <= |ids|
        invariant setting in ids[i..]
      {
        if ids[i] == setting {
          return i;
        }
        i := i + 1;
      }
    }

    /** config_setting_add */
    method AddSetting(parent: Id, name: Option<string>, kind: Kind) returns (r: Option<Id>)
      requires Valid() && parent in store.nodes
      modifies this
      ensures Valid()
      ensures store == Perform1(old(store), Edit.AddSetting(parent, name, kind))
      ensures r.Some? <==> Perform(old(store), Edit.AddSetting(parent, name, kind)).Some?
      ensures r.Some? ==> r == Some(old(store).next)
      ensures r.Some? ==>
        Extended(old(store), store, parent,
                 if old(store).nodes[parent].kind.GroupKind? then name else None, kind, Blank(kind))
    {
      hide Extended;
      var p := store.nodes[parent];
      ghost var e := Edit.AddSetting(parent, name, kind);
      if Perform(store, e).Some? {
        EditKeepsTree(store, e);
        AddEffect(store, parent, name, kind);
      }
      var name' := if p.kind.ArrayKind? || p.kind.ListKind? then None else name;
      if name'.Some? {
        var ok := ValidateName(name'.value);
        if !ok {
          return None;
        }
      }
      if p.kind.GroupKind? {
        if name'.Some? {
          var found := ListSearch(Children(p), name'.value);
          if found.Some? {
            return None;
          }
        } else if HasNamed(store, Children(p)) {
          return None;
        }
      }
      if !Aggregate(p.kind) {
        return None;
      }
      r := Some(store.next);
      store := Create(store, parent, name', kind);
    }

    /** config_setting_set_* */
    method SetValue(id: Id, d: Datum) returns (ok: bool)
      requires Valid() && id in store.nodes
      modifies this
      ensures Valid()
      ensures store == Perform1(old(store), Edit.SetValue(id, d))
      ensures ok == Perform(old(store), Edit.SetValue(id, d)).Some?
      ensures ok ==> Changed(old(store), store, id, Kept(old(store).nodes[id], d))
    {
      hide Tree, Changed;
      ghost var e := Edit.SetValue(id, d);
      if Perform(store, e).Some? {
        EditKeepsTree(store, e);
        SetEffect(store, id, d);
      }
      var changed := Assign(store.nodes[id], d);
      if changed.None? {
        return false;
      }
      store := Replace(store, id, changed.value);
      return true;
    }

    /** config_setting_set_*_elem */
    method SetElem(vector: Id, idx: int, d: Datum) returns (r: Option<Id>)
      requires Valid() && vector in store.nodes
      modifies this
      ensures Valid()
      ensures store == Perform1(old(store), SetElement(vector, idx, d))
      ensures r.Some? <==> Perform(old(store), SetElement(vector, idx, d)).Some?
      ensures r.Some? && idx < 0 ==>
        r.value == old(store).next
        && Extended(old(store), store, vector, None, DatumKind(d), Said(d, FORMAT_DEFAULT))
      ensures r.Some? && idx >= 0 ==>
        ElementSet(old(store), store, vector, idx, d) && r.value == Children(old(store).nodes[vector])[idx]
    {
      hide Tree, CheckType, Add, Search, RemoveAt, ListAdd, Extended, ElementSet;
      var v := store.nodes[vector];
      ghost var e := SetElement(vector, idx, d);
      if Perform(store, e).Some? {
        EditKeepsTree(store, e);
        if idx < 0 {
          AppendEffect(store, vector, idx, d);
        } else {
          SetElementEffect(store, vector, idx, d);
        }
      }
      if !v.kind.ArrayKind? && !v.kind.ListKind? {
        return None;
      }
      var element;
      if idx < 0 {
        if !CheckType(store, vector, DatumKind(d)) {
          return None;
        }
        element := store.next;
        assert vector != element by { assert Tree(store); Below(store, vector); }
        store := Create(store, vector, None, DatumKind(d));
      } else {
        if idx >= |Children(v)| {
          return None;
        }
        element := Children(v)[idx];
        ElementLinked(store, vector, idx);
      }
      var changed := Assign(store.nodes[element], d);
      if changed.None? {
        return None;
      }
      store := Replace(store, element, changed.value);
      r := Some(element);
    }

    /** __config_setting_destroy and __config_list_destroy, for a setting of the tree as it was. */
    method Destroy(id: Id, ghost was: Store)
      requires Tree(was) && id in was.nodes
      requires forall k :: k in was.nodes && Under(was, k, id) ==> k in store.nodes && store.nodes[k].payload == was.nodes[k].payload
      modifies this
      ensures store == old(store).(nodes := Without(old(store).nodes, was, id))
      decreases was.next - id
    {
      hide Under, Tree;
      assert Under(was, id, id) by { Reflexive(was, id); }
      var ids := Children(store.nodes[id]);
      assert ids == Children(was.nodes[id]);
      var i := 0;
      while i < |ids|
        invariant 0 <= i <= |ids| && store.next == old(store).next
        invariant forall k :: k in store.nodes <==> k in old(store).nodes && !UnderSome(was, k, ids[..i])
        invariant forall k :: k in store.nodes ==> store.nodes[k] == old(store).nodes[k]
      {
        DestroyNext(was, id, i, old(store), store);
        Destroy(ids[i], was);
        forall k
          ensures UnderSome(was, k, ids[..i + 1]) <==> UnderSome(was, k, ids[..i]) || Under(was, k, ids[i])
        {
          OneMore(was, k, ids, i);
        }
        i := i + 1;
      }
      assert ids[..|ids|] == ids;
      DestroyedAll(was, id);
      store := store.(nodes := store.nodes - {id});
    }

    /** config_setting_remove_elem */
    method RemoveElem(parent: Id, idx: nat) returns (ok: bool)
      requires Valid() && parent in store.nodes
      modifies this
      ensures Valid()
      ensures store == Perform1(old(store), RemoveElement(parent, idx))
      ensures ok == Perform(old(store), RemoveElement(parent, idx)).Some?
      ensures ok ==> Shrunk(old(store), store, parent, idx)
    {
      hide Tree, Under, Without, ListRemove, Shrunk;
      ghost var e := RemoveElement(parent, idx);
      if Perform(store, e).Some? {
        EditKeepsTree(store, e);
        RemoveElementEffect(store, parent, idx);
      }
      var p := store.nodes[parent];
      if !Aggregate(p.kind) || idx >= |Children(p)| {
        return false;
      }
      RemoveFrom(parent, idx);
      return true;
    }

    /** config_setting_remove */
    method Remove(parent: Id, name: string) returns (ok: bool)
      requires Valid() && parent in store.nodes
      modifies this
      ensures Valid()
      ensures store == Perform1(old(store), RemoveMember(parent, name))
      ensures ok == Perform(old(store), RemoveMember(parent, name)).Some?
      ensures ok ==> exists idx :: Shrunk(old(store), store, parent, idx) && FirstMatch(old(store), parent, idx, name)
    {
      hide Tree, Under, Without, ListRemove, Shrunk, FirstMatch;
      ghost var e := RemoveMember(parent, name);
      if Perform(store, e).Some? {
        EditKeepsTree(store, e);
        var idx := RemoveMemberEffect(store, parent, name);
      }
      var p := store.nodes[parent];
      if !p.kind.GroupKind? {
        return false;
      }
      ElementsKnown(store, parent);
      var found := ListSearch(Children(p), name);
      if found.None? {
        return false;
      }
      RemoveFrom(parent, found.value);
      return true;
    }

    /** Take an element out of its list, then destroy it. */
    method RemoveFrom(parent: Id, idx: nat)
      requires Valid() && parent in store.nodes && idx < |Children(store.nodes[parent])|
      modifies this
      ensures store == RemoveAt(old(store), parent, idx)
    {
      hide Under, Without, ListRemove, NodeOk, Linked;
      var p := store.nodes[parent];
      var removed := Children(p)[idx];
      assert removed in Children(p);
      NotUnder(store, parent, removed);
      store := store.(nodes := store.nodes[parent := p.(payload := ListRemove(p.payload, idx))]);
      Destroy(removed, old(store));
    }
  }

  lemma Below(st: Store, id: Id)
    requires Tree(st) && id in st.nodes
    ensures id < st.next
  {
  }

  lemma ElementsKnown(st: Store, id: Id)
    requires Tree(st) && id in st.nodes
    ensures forall k :: k in Children(st.nodes[id]) ==> k in st.nodes
  {
  }

  lemma ElementLinked(st: Store, id: Id, idx: nat)
    requires Tree(st) && id in st.nodes && idx < |Children(st.nodes[id])|
    ensures Children(st.nodes[id])[idx] in st.nodes && st.nodes[Children(st.nodes[id])[idx]].parent == Some(id)
  {
  }

  lemma Reflexive(st: Store, id: Id)
    ensures Under(st, id, id)
  {
  }

  ghost predicate UnderSome(st: Store, k: Id, ids: seq<Id>)
  {
    exists c :: c in ids && Under(st, k, c)
  }

  lemma OneMore(st: Store, k: Id, ids: seq<Id>, i: nat)
    requires i < |ids|
    ensures UnderSome(st, k, ids[..i + 1]) <==> UnderSome(st, k, ids[..i]) || Under(st, k, ids[i])
  {
  }

  /** Destroying the first elements leaves everything under the next one. */
  lemma DestroyNext(was: Store, id: Id, i: nat, start: Store, now: Store)
    requires Tree(was) && id in was.nodes && i < |Children(was.nodes[id])|
    requires forall k :: k in was.nodes && Under(was, k, id) ==>
               k in start.nodes && start.nodes[k].payload == was.nodes[k].payload
    requires forall k :: k in now.nodes <==> k in start.nodes && !UnderSome(was, k, Children(was.nodes[id])[..i])
    requires forall k :: k in now.nodes ==> now.nodes[k] == start.nodes[k]
    ensures
      var c := Children(was.nodes[id])[i];
      && c in was.nodes && id < c < was.next
      && forall k :: k in was.nodes && Under(was, k, c) ==>
           k in now.nodes && now.nodes[k].payload == was.nodes[k].payload
  {
    hide Under, NodeOk, Linked;
    var ids := Children(was.nodes[id]);
    var c := ids[i];
    assert c in ids;
    DistinctElements(was, id);
    forall k | k in was.nodes && Under(was, k, c)
      ensures k in now.nodes && now.nodes[k].payload == was.nodes[k].payload
    {
      ElementUnder(was, id, c);
      UnderTrans(was, k, c, id);
      if UnderSome(was, k, ids[..i]) {
        var b :| b in ids[..i] && Under(was, k, b);
        Siblings(was, id, k, b, c);
      }
    }
  }

  lemma DistinctElements(st: Store, id: Id)
    requires Tree(st) && id in st.nodes
    ensures Distinct(Children(st.nodes[id]))
  {
  }

  /** What is under a setting is the setting itself and what is under its elements. */
  lemma DestroyedAll(was: Store, id: Id)
    requires Tree(was) && id in was.nodes
    ensures forall k :: Under(was, k, id) <==> k == id || UnderSome(was, k, Children(was.nodes[id]))
  {
    hide Under, NodeOk;
    Reflexive(was, id);
    forall k
      ensures Under(was, k, id) <==> k == id || UnderSome(was, k, Children(was.nodes[id]))
    {
      if k != id && Under(was, k, id) {
        UnderIn(was, k, id);
        UnderElement(was, k, id);
      }
      if UnderSome(was, k, Children(was.nodes[id])) {
        var c :| c in Children(was.nodes[id]) && Under(was, k, c);
        ElementUnder(was, id, c);
        UnderTrans(was, k, c, id);
      }
    }
  }

  lemma UnderIn(st: Store, k: Id, id: Id)
    requires Under(st, k, id) && k != id
    ensures k in st.nodes
  {
  }
}
