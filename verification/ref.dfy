/** Pointer helpers: each scalar helper returns the address of its own copy
    of the argument; `Strings` returns pointers to the elements of the very
    slice it was given. */
module Ref {
  import opened Wrappers

  /** A variable whose address was taken. */
  class Cell<T> {
    var value: T

    constructor (value: T)
      ensures this.value == value
    {
      this.value := value;
    }
  }

  /** `Bool`, `Uint`, `Uint8`, `Uint32`, `Uint64`, `Int`, `Int8`, `Int32`,
      `Int64`, `String`, `Time` and `Duration`: a new variable holding `i`. */
  method To<T>(i: T) returns (p: Cell<T>)
    ensures fresh(p) && p.value == i
  {
    p := new Cell(i);
  }

  /** `&ss[index]`: the address of one element of a slice. */
  datatype ElementPtr = ElementPtr(slice: array<string>, index: nat)

  /** The string a pointer points at. */
  function Load(p: ElementPtr): (s: string)
    reads p.slice
    requires p.index < p.slice.Length
    ensures s == p.slice[p.index]
  {
    p.slice[p.index]
  }

  /** `*p = s`: writes into the slice element itself. */
  method Store(p: ElementPtr, s: string)
    requires p.index < p.slice.Length
    modifies p.slice
    ensures p.slice[..] == old(p.slice[..])[p.index := s]
  {
    p.slice[p.index] := s;
  }

  /** A new slice of the same length whose i-th pointer (nil when made)
      is set to the address of `ss[i]`. */
  method Strings(ss: array<string>) returns (r: array<Option<ElementPtr>>)
    ensures fresh(r) && r.Length == ss.Length
    ensures forall i :: 0 <= i < r.Length ==> r[i] == Some(ElementPtr(ss, i))
  {
    r := new Option<ElementPtr>[ss.Length](_ => None);
    for i := 0 to ss.Length
      invariant forall j :: 0 <= j < i ==> r[j] == Some(ElementPtr(ss, j))
    {
      r[i] := Some(ElementPtr(ss, i));
    }
  }

  /** A write through the i-th pointer `Strings` returned changes `ss[i]`
      and no other element, and reading through any pointer then sees it. */
  method WriteThrough(ss: array<string>, i: nat, s: string) returns (r: array<Option<ElementPtr>>)
    requires i < ss.Length
    modifies ss
    ensures r.Length == ss.Length
    ensures ss[..] == old(ss[..])[i := s]
    ensures forall j :: 0 <= j < r.Length ==>
              r[j].Some? && r[j].value.slice == ss && r[j].value.index == j && Load(r[j].value) == ss[j]
  {
    r := Strings(ss);
    Store(r[i].value, s);
  }
}
