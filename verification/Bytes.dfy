/** C strings, C pointers and the byte constants the whole model shares. */
module Bytes {

  /** One byte of memory; the terminating NUL is '\0'. */
  type Byte = c: char | c as int < 256 witness '\0'

  /** One byte of a C string before its terminator. */
  type Chr = c: char | 0 < c as int < 256 witness 'a'

  /** The bytes of a NUL-terminated string, terminator excluded; strlen is |s|. */
  type Str = seq<Chr>

  datatype Option<+T> = None | Some(value: T)

  /** A `const char *` that may be NULL. */
  type CStr = Option<Str>

  const US: Chr := '\U{1f}'
  const RS: Chr := '\U{1e}'
  const COMMA: Chr := ','
  const EQUALS: Chr := '='

  /** Reading byte `i` of a C string. The precondition is the memory-safety rule:
      the terminator itself may be read, nothing behind it may. */
  function At(s: Str, i: nat): Byte
    requires i <= |s|
  {
    if i < |s| then s[i] else '\0'
  }

  /** NULL reads as the empty string. */
  function Nz(s: CStr): Str {
    if s.Some? then s.value else []
  }

  function NzAll(items: seq<CStr>): (r: seq<Str>)
    ensures |r| == |items|
    ensures forall i :: 0 <= i < |items| ==> r[i] == Nz(items[i])
  {
    seq(|items|, i requires 0 <= i < |items| => Nz(items[i]))
  }

  /** The strings as non-NULL C pointers. */
  function Pointers(xs: seq<Str>): (r: seq<CStr>)
    ensures |r| == |xs| && forall i :: 0 <= i < |xs| ==> r[i] == Some(xs[i])
    ensures NzAll(r) == xs
  {
    var r := seq(|xs|, i requires 0 <= i < |xs| => Some(xs[i]));
    assert NzAll(r) == xs;
    r
  }

  ghost predicate NoDup<T>(s: seq<T>) {
    forall i, j :: 0 <= i < j < |s| ==> s[i] != s[j]
  }

  /** The elements of a sequence, as a set. */
  ghost function Elems<T>(s: seq<T>): set<T> {
    set x | x in s
  }

  function Map<T, U>(f: T -> U, s: seq<T>): (r: seq<U>)
    ensures |r| == |s|
    ensures forall i :: 0 <= i < |s| ==> r[i] == f(s[i])
  {
    seq(|s|, i requires 0 <= i < |s| => f(s[i]))
  }
}
