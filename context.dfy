/**
 Go's request context as package http uses it: `context.WithValue` makes a
 child context that holds one key/value pair and otherwise defers to its
 parent, and `Value(key)` walks from the child towards the root.
 */
module Context {
  import opened Wrappers

  /** A context key. Go compares keys by dynamic type and value. Keys of package
      http's unexported type `ctxkey` carry an int; keys of any other package
      (the server's own, a router's) belong to some other type. */
  datatype Key = CtxKey(n: int) | ForeignKey(typeName: string, name: string)

  /** A value stored in a context, seen through Go's `interface{}`. */
  datatype Value = StringValue(s: string) | OtherValue(typeName: string)

  /** The parent chain of value contexts, rooted at `context.Background()`. */
  datatype Context = Background | WithValue(parent: Context, key: Key, val: Value)

  /** `ctx.Value(key)`: the value of the innermost pair for `key`, or nil. */
  function Lookup(ctx: Context, key: Key): Option<Value>
  {
    match ctx
    case Background => None
    case WithValue(parent, k, v) => if k == key then Some(v) else Lookup(parent, key)
  }

  /** The key/value pairs a context exposes, inner pairs shadowing outer ones. */
  function ToMap(ctx: Context): map<Key, Value>
  {
    match ctx
    case Background => map[]
    case WithValue(parent, k, v) => ToMap(parent)[k := v]
  }

  /** Looking a key up along the chain agrees with the flat map view. */
  lemma {:induction false} LookupIsMap(ctx: Context, key: Key)
    ensures Lookup(ctx, key) == if key in ToMap(ctx) then Some(ToMap(ctx)[key]) else None
  {
    match ctx
    case Background =>
    case WithValue(parent, k, v) =>
      if k != key {
        LookupIsMap(parent, key);
      }
  }

  /** Every pair of the chain was put there under a key of another package. */
  predicate ForeignOnly(ctx: Context)
  {
    match ctx
    case Background => true
    case WithValue(parent, k, _) => k.ForeignKey? && ForeignOnly(parent)
  }

  /** A context built only by other packages holds nothing under any of package
      http's keys: an unexported key type cannot collide with theirs. */
  lemma {:induction false} ForeignContextHasNoOwnKey(ctx: Context, n: int)
    requires ForeignOnly(ctx)
    ensures Lookup(ctx, CtxKey(n)) == None
  {
    match ctx
    case Background =>
    case WithValue(parent, _, _) =>
      ForeignContextHasNoOwnKey(parent, n);
  }
}
