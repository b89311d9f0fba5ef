/** Array+SafeSubscript.swift: `array[safe: index]`. */
module SafeSubscript {
  import opened Wrappers

  /** The element at `index` when `index` is one of the array's indices, else `nil`; it never traps. */
  function SafeGet<T>(a: seq<T>, index: int): Option<T> {
    if 0 <= index < |a| then Some(a[index]) else None
  }

  lemma SafeGetInRange<T>(a: seq<T>, index: int)
    requires 0 <= index < |a|
    ensures SafeGet(a, index) == Some(a[index])
  {
  }

  lemma SafeGetOutOfRange<T>(a: seq<T>, index: int)
    requires index < 0 || |a| <= index
    ensures SafeGet(a, index) == None
  {
  }

  /** An answer, when there is one, is an element of the array. */
  lemma SafeGetIsElement<T>(a: seq<T>, index: int)
    ensures SafeGet(a, index).Some? <==> 0 <= index < |a|
    ensures SafeGet(a, index).Some? ==> SafeGet(a, index).value in a
  {
  }

  lemma SafeGetOnEmpty<T>(a: seq<T>, index: int)
    requires a == []
    ensures SafeGet(a, index) == None
  {
  }
}
