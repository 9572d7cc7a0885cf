/** Go pointers, nil-able slices and (value, error) returns as values. */
module Options {

  /** A Go pointer or nil-able slice or map: `None` is nil, `Some(v)` points at v. */
  datatype Option<+T> = None | Some(value: T)

  /** The (value, error) pair a Go function returns. */
  datatype Result<+T, +E> = Success(value: T) | Failure(error: E)

  /** The first set pointer: forProvider before initProvider. */
  function Or<T>(first: Option<T>, second: Option<T>): Option<T> {
    if first.Some? then first else second
  }

  /** What is stored where a field may be absent. */
  function Chosen<T>(sent: Option<T>, otherwise: T): T {
    if sent.Some? then sent.value else otherwise
  }

  function Deref(s: Option<string>): string {
    if s.Some? then s.value else ""
  }

  predicate DerefBool(b: Option<bool>) {
    b == Some(true)
  }

  /** An unset enabled flag counts as on. */
  predicate EnabledOrTrue(b: Option<bool>) {
    b != Some(false)
  }

  /** A field the user set must equal the observed value; an unset one is free. */
  predicate Agrees<T(==)>(want: Option<T>, got: T) {
    want.Some? ==> want.value == got
  }

  /** Late initialization writes a field that is unset in both halves of the spec, and no other. */
  function LateInitPtr<T>(dst: Option<T>, init: Option<T>, v: T): (r: (Option<T>, bool))
    ensures r == if dst.None? && init.None? then (Some(v), true) else (dst, false)
  {
    if dst.Some? || init.Some? then (dst, false) else (Some(v), true)
  }

  /** What a list field becomes when a JSON encoding with omitempty is read back. */
  function NonEmpty<T>(s: Option<seq<T>>): Option<seq<T>> {
    if s == Some([]) then None else s
  }

  function One(b: bool): nat {
    if b then 1 else 0
  }
}
