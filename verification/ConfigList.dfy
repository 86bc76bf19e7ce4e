/**
 Growing buffers of the library: the element buffer of an aggregate setting
 (libconfig.c) and the string buffer of the scanner and the parser (strbuf.c).
 */
module ConfigList {
  import opened Options
  import opened ConfigStore

  /** The least multiple of the chunk size that is not below n. */
  function RoundUp(n: nat, chunk: nat): (r: nat)
    requires chunk > 0
  {
    (n + chunk - 1) / chunk * chunk
  }

  lemma RoundUpChunk(n: nat)
    ensures n % CHUNK_SIZE == 0 ==> RoundUp(n, CHUNK_SIZE) == n && RoundUp(n + 1, CHUNK_SIZE) == n + CHUNK_SIZE
    ensures n % CHUNK_SIZE != 0 ==> RoundUp(n + 1, CHUNK_SIZE) == RoundUp(n, CHUNK_SIZE)
    ensures n <= RoundUp(n, CHUNK_SIZE)
  {
  }

  /** What realloc keeps: as many leading elements as fit in both blocks. */
  method Reallocate<T(0)>(block: array<T>, size: nat) returns (r: array<T>)
    ensures fresh(r) && r.Length == size
    ensures forall i :: 0 <= i < size && i < block.Length ==> r[i] == block[i]
  {
    r := new T[size];
    var i := 0;
    while i < size && i < block.Length
      invariant 0 <= i <= size && i <= block.Length
      invariant forall j :: 0 <= j < i ==> r[j] == block[j]
    {
      r[i] := block[i];
      i := i + 1;
    }
  }

  /** config_list_t */
  class SettingList {
    var elements: array<Id>
    var length: nat

    /** The buffer covers the length rounded up to a whole chunk. */
    ghost predicate Valid()
      reads this
    {
      length <= elements.Length && RoundUp(length, CHUNK_SIZE) <= elements.Length
    }

    /** The list as the payload of an aggregate setting. */
    ghost function Contents(): Payload
      reads this, elements
      requires Valid()
    {
      Elements(elements[..length], elements.Length)
    }

    constructor ()
      ensures Valid() && Contents() == Elements([], 0) && fresh(elements)
    {
      elements, length := new Id[0], 0;
      new;
      assert elements[..length] == [];
    }

    /** __config_list_add: every write lands inside the buffer. */
    method Add(setting: Id)
      requires Valid()
      modifies this, elements
      ensures Valid() && Contents() == ListAdd(old(Contents()), setting)
      ensures elements == old(elements) || fresh(elements)
    {
      RoundUpChunk(length);
      ghost var was := elements[..length];
      if length % CHUNK_SIZE == 0 {
        elements := Reallocate(elements, length + CHUNK_SIZE);
        assert elements[..length] == was;
      }
      elements[length] := setting;
      length := length + 1;
      assert elements[..length] == was + [setting];
    }

    /** __config_list_remove: the tail moves down by one; the buffer keeps its size. */
    method Remove(idx: nat) returns (removed: Id)
      requires Valid() && idx < length
      modifies this`length, elements
      ensures Valid() && elements == old(elements)
      ensures removed == old(elements[idx])
      ensures Contents() == ListRemove(old(Contents()), idx)
    {
      ghost var was := elements[..length];
      var base := elements;
      removed := base[idx];
      var i := idx;
      while i < length - 1
        invariant length == old(length) && elements == base && idx <= i < length
        invariant forall j :: 0 <= j < idx ==> base[j] == was[j]
        invariant forall j :: idx <= j < i ==> base[j] == was[j + 1]
        invariant forall j :: i < j < length ==> base[j] == was[j]
      {
        base[i] := base[i + 1];
        i := i + 1;
      }
      length := length - 1;
      RoundUpMonotone(length);
      assert elements[..length] == was[..idx] + was[idx + 1..];
    }
  }

  lemma RoundUpMonotone(n: nat)
    ensures RoundUp(n, CHUNK_SIZE) <= RoundUp(n + 1, CHUNK_SIZE)
  {
  }

  /** The payload after an element was taken out. */
  function ListRemove(p: Payload, idx: nat): (r: Payload)
    requires p.Elements? && idx < |p.ids|
    ensures r.Elements? && r.capacity == p.capacity && |r.ids| == |p.ids| - 1
  {
    p.(ids := p.ids[..idx] + p.ids[idx + 1..])
  }

  const STRING_BLOCK_SIZE := 64

  lemma CoversBlock(n: nat)
    ensures
      var r := RoundUp(n, STRING_BLOCK_SIZE);
      n <= r < n + STRING_BLOCK_SIZE && r % STRING_BLOCK_SIZE == 0
  {
  }

  /** strcpy to a position inside a block, with the terminating NUL. */
  method CopyText(block: array<char>, at: nat, text: string)
    requires at + |text| < block.Length
    modifies block
    ensures block[..at + |text|] == old(block[..at]) + text && block[at + |text|] == '\0'
  {
    var i := 0;
    while i < |text|
      invariant 0 <= i <= |text|
      invariant block[..at + i] == old(block[..at]) + text[..i]
    {
      block[at + i] := text[i];
      i := i + 1;
    }
    block[at + |text|] := '\0';
    assert text[..|text|] == text;
  }

  /** strbuf_t: a NUL-terminated string in a block of whole chunks; a null string has capacity 0. */
  class StringBuffer {
    var block: array<char>
    var length: nat

    ghost predicate Valid()
      reads this, block
    {
      && (block.Length == 0 ==> length == 0)
      && (block.Length > 0 ==>
            length < block.Length && block.Length % STRING_BLOCK_SIZE == 0 && block[length] == '\0')
    }

    /** The string, or None for a null pointer. */
    ghost function Contents(): Option<string>
      reads this, block
      requires Valid()
    {
      if block.Length == 0 then None else Some(block[..length])
    }

    constructor ()
      ensures Valid() && Contents() == None && fresh(block)
    {
      block, length := new char[0], 0;
    }

    /** strbuf_append */
    method Append(text: string)
      requires Valid()
      modifies this, block
      ensures Valid() && (block == old(block) || fresh(block))
      ensures Contents() == Some((if old(Contents()).Some? then old(Contents()).value else "") + text)
      ensures block.Length == if old(length) + |text| + 1 > old(block.Length)
                              then RoundUp(old(length) + |text| + 1, STRING_BLOCK_SIZE) else old(block.Length)
    {
      var newLength := length + |text| + 1;
      ghost var was := block[..length];
      if newLength > block.Length {
        CoversBlock(newLength);
        block := Reallocate(block, RoundUp(newLength, STRING_BLOCK_SIZE));
        assert block[..length] == was;
      }
      CopyText(block, length, text);
      length := length + |text|;
    }

    /** strbuf_release: the string goes to the caller, and the buffer is null again. */
    method Release() returns (r: Option<string>)
      requires Valid()
      modifies this
      ensures r == old(Contents())
      ensures Valid() && Contents() == None && fresh(block)
    {
      r := if block.Length == 0 then None else Some(block[..length]);
      block, length := new char[0], 0;
    }
  }
}
