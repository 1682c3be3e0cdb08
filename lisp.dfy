/** The few shapes of host Lisp objects that the backend reads or builds.
    Symbols and strings are distinguished because `get_family` and `open`
    accept both and read their names. */
module Lisp {

  datatype LispObject =
    | Nil
    | Sym(name: string)
    | Str(s: string)
    | Fixnum(n: int)
    | Cons(car: LispObject, cdr: LispObject)
    | Opaque(id: nat)   // any other host object (a frame, a window, ...)

  /** A symbol or a string, the objects `as_symbol_or_string` accepts. */
  predicate IsSymbolOrString(o: LispObject)
  {
    o.Sym? || o.Str?
  }

  /** The name of a symbol or the contents of a string. */
  function NameOf(o: LispObject): (r: string)
    requires IsSymbolOrString(o)
    ensures o.Sym? ==> r == o.name
    ensures o.Str? ==> r == o.s
  {
    if o.Sym? then o.name else o.s
  }
}
