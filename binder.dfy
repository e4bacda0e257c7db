/** The local bindings that `specialize_instance_method` passes on: the
    object under the name `self`, then the caller's bindings, if any. */
module Binder {
  import opened Wrappers

  /** `new_locals = {'self': obj}`, updated with `_locals` when that is
      truthy (given and not empty); a caller's own `self` takes precedence. */
  function MethodLocals<V>(obj: V, locals: Option<map<string, V>>): (m: map<string, V>)
    ensures m.Keys == {"self"} + (if locals.Some? then locals.value.Keys else {})
    ensures locals.Some? ==> forall k :: k in locals.value ==> m[k] == locals.value[k]
    ensures (locals.None? || "self" !in locals.value) ==> m["self"] == obj
  {
    var m := map["self" := obj];
    if locals.Some? && locals.value != map[] then m + locals.value else m
  }
}
