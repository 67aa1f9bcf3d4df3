/**
 The few Ruby notions the orchestrator's code relies on: dynamically typed
 values stored in option hashes, Ruby truthiness (only nil and false are
 false), `hash[key]` on a hash without a default, `a || b`, and the string
 interpolation / `inspect` forms that end up in error messages.
 */
module RubyValues {

  datatype Option<T> = None | Some(value: T)

  datatype Result<T, E> = Ok(value: T) | Err(error: E)

  /** A Ruby object as far as the orchestrator's option hashes hold one. */
  datatype Value =
    | Nil
    | Bool(b: bool)
    | Int(i: int)
    | Str(s: string)
    | Sym(name: string)
    | List(items: seq<Value>)
    | Hash(entries: seq<Entry>)

  /** One key/value pair of a Ruby hash, in insertion order. */
  datatype Entry = Entry(key: Value, val: Value)

  /** Ruby truthiness: everything except nil and false is true. */
  predicate Truthy(v: Value) {
    v != Nil && v != Bool(false)
  }

  /** `h[key]` on a plain Ruby hash: a missing key reads as nil. */
  function Fetch(h: map<string, Value>, key: string): (v: Value)
    ensures key in h ==> v == h[key]
    ensures key !in h ==> v == Nil
  {
    if key in h then h[key] else Nil
  }

  /** Ruby's `a || b`: `a` when it is truthy, `b` otherwise. */
  function Or(a: Value, b: Value): (v: Value)
    ensures Truthy(a) ==> v == a
    ensures !Truthy(a) ==> v == b
  {
    if Truthy(a) then a else b
  }

  /** Concatenation of Ruby arrays (and of logs) regroups freely. */
  lemma ConcatAssoc<T>(a: seq<T>, b: seq<T>, c: seq<T>)
    ensures a + (b + c) == a + b + c
  {
  }

  function Digit(d: nat): char
    requires d < 10
  {
    "0123456789"[d]
  }

  function NatToString(n: nat): string
  {
    if n < 10 then [Digit(n)] else NatToString(n / 10) + [Digit(n % 10)]
  }

  function IntToString(i: int): string
  {
    if i < 0 then "-" + NatToString(-i) else NatToString(i)
  }

  /** What `"#{v}"` interpolates (Ruby's `to_s`). */
  function Show(v: Value): string
  {
    match v
    case Nil => ""
    case Str(s) => s
    case Sym(n) => n
    case _ => Inspect(v)
  }

  /**
   Ruby's `inspect`. String escapes are not reproduced: a string is shown
   between double quotes as it is.
   */
  function Inspect(v: Value): string
    decreases v
  {
    match v
    case Nil => "nil"
    case Bool(b) => if b then "true" else "false"
    case Int(i) => IntToString(i)
    case Str(s) => "\"" + s + "\""
    case Sym(n) => ":" + n
    case List(items) => "[" + InspectItems(items) + "]"
    case Hash(entries) => "{" + InspectEntries(entries) + "}"
  }

  function InspectItems(items: seq<Value>): string
    decreases items
  {
    if items == [] then ""
    else if |items| == 1 then Inspect(items[0])
    else Inspect(items[0]) + ", " + InspectItems(items[1..])
  }

  function InspectEntries(entries: seq<Entry>): string
    decreases entries
  {
    if entries == [] then ""
    else
      var shown := InspectEntry(entries[0]);
      if |entries| == 1 then shown else shown + ", " + InspectEntries(entries[1..])
  }

  function InspectEntry(e: Entry): string
    decreases e
  {
    Inspect(e.key) + "=>" + Inspect(e.val)
  }
}
