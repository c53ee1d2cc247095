/**
 * The key/value configuration section of the staged governance system
 * (`config_section_t`): an append-only buffer of pairs whose capacity doubles
 * when full, searched front to back.
 */
module Config {
  import opened Wrappers
  import opened Growth

  /** config_pair_t. */
  datatype Pair = Pair(key: string, value: string)

  /** The search of config_section_get from index `i` on. */
  function LookupFrom(pairs: seq<Pair>, key: string, i: nat): Option<string>
    decreases |pairs| - i
  {
    if i >= |pairs| then None
    else if pairs[i].key == key then Some(pairs[i].value)
    else LookupFrom(pairs, key, i + 1)
  }

  /** The value stored under `key`, searching front to back. */
  function Lookup(pairs: seq<Pair>, key: string): Option<string>
  {
    LookupFrom(pairs, key, 0)
  }

  /** Pair `j` is the earliest one carrying `key`. */
  predicate FirstWithKey(pairs: seq<Pair>, key: string, j: int)
  {
    0 <= j < |pairs| && pairs[j].key == key && forall k :: 0 <= k < j ==> pairs[k].key != key
  }

  lemma {:induction false} LookupFromSpec(pairs: seq<Pair>, key: string, i: nat)
    requires forall k :: 0 <= k < i && k < |pairs| ==> pairs[k].key != key
    ensures LookupFrom(pairs, key, i).None? <==> forall j :: i <= j < |pairs| ==> pairs[j].key != key
    ensures forall j :: FirstWithKey(pairs, key, j) ==> LookupFrom(pairs, key, i) == Some(pairs[j].value)
    decreases |pairs| - i
  {
    if i < |pairs| && pairs[i].key != key {
      LookupFromSpec(pairs, key, i + 1);
    }
  }

  /** Lookup is first match: absent exactly when no pair carries the key, and
      otherwise the value of the earliest pair that does. */
  lemma LookupSpec(pairs: seq<Pair>, key: string)
    ensures Lookup(pairs, key).None? <==> forall j :: 0 <= j < |pairs| ==> pairs[j].key != key
    ensures forall j :: FirstWithKey(pairs, key, j) ==> Lookup(pairs, key) == Some(pairs[j].value)
  {
    LookupFromSpec(pairs, key, 0);
  }

  /** The search loop of config_section_get. */
  method Find(pairs: seq<Pair>, key: string) returns (r: Option<string>)
    ensures r == Lookup(pairs, key)
  {
    for i := 0 to |pairs|
      invariant LookupFrom(pairs, key, i) == Lookup(pairs, key)
    {
      if pairs[i].key == key {
        return Some(pairs[i].value);
      }
    }
    return None;
  }

  lemma {:induction false} LookupFromAfterAppend(pairs: seq<Pair>, p: Pair, key: string, i: nat)
    requires i <= |pairs|
    ensures LookupFrom(pairs + [p], key, i)
         == if LookupFrom(pairs, key, i).Some? then LookupFrom(pairs, key, i)
            else if p.key == key then Some(p.value)
            else None
    decreases |pairs| - i
  {
    if i < |pairs| {
      assert (pairs + [p])[i] == pairs[i];
      LookupFromAfterAppend(pairs, p, key, i + 1);
    }
  }

  /** Appending never shadows an existing key: the earliest pair keeps winning,
      and a new key becomes visible. */
  lemma LookupAfterAppend(pairs: seq<Pair>, p: Pair, key: string)
    ensures Lookup(pairs + [p], key)
         == if Lookup(pairs, key).Some? then Lookup(pairs, key)
            else if p.key == key then Some(p.value)
            else None
  {
    LookupFromAfterAppend(pairs, p, key, 0);
  }

  /** config_section_t: the pairs added so far and the allocated capacity. */
  class ConfigSection {
    var pairs: seq<Pair>
    var capacity: nat

    ghost predicate Valid()
      reads this
    {
      0 < capacity && |pairs| <= capacity
    }

    /** config_section_create: empty, room for 10 pairs. */
    constructor ()
      ensures Valid() && pairs == [] && capacity == 10
    {
      pairs := [];
      capacity := 10;
    }
  }

  /** config_section_add.  A NULL section, key or value is refused and nothing
      changes; otherwise the pair is appended after doubling a full buffer. */
  method SectionAdd(section: ConfigSection?, key: Option<string>, value: Option<string>) returns (ok: bool)
    requires section != null ==> section.Valid()
    modifies section
    ensures ok <==> section != null && key.Some? && value.Some?
    ensures section != null ==> section.Valid()
    ensures section != null && ok ==>
      section.pairs == old(section.pairs) + [Pair(key.value, value.value)]
      && section.capacity == GrownCapacity(|old(section.pairs)|, old(section.capacity))
    ensures section != null && !ok ==> unchanged(section)
  {
    if section == null || key.None? || value.None? {
      return false;
    }
    if |section.pairs| >= section.capacity {
      section.capacity := section.capacity * 2;
    }
    section.pairs := section.pairs + [Pair(key.value, value.value)];
    return true;
  }

  /** config_section_get: NULL for a NULL section or key, else the earliest
      match. */
  method SectionGet(section: ConfigSection?, key: Option<string>) returns (r: Option<string>)
    ensures section == null || key.None? ==> r.None?
    ensures section != null && key.Some? ==> r == Lookup(section.pairs, key.value)
  {
    if section == null || key.None? {
      return None;
    }
    r := Find(section.pairs, key.value);
  }
}
