/** The symbol table: one scope maps names to type names, and the scope stack
    holds the open scopes, outermost first and innermost last. */
module Scopes {

  type Env = map<string, string>

  /** Every binding has a non-empty type, so "" can stand for "not found". */
  predicate TypedEnv(e: Env) { forall n | n in e :: e[n] != "" }

  predicate TypedStack(stack: seq<Env>) { forall i | 0 <= i < |stack| :: TypedEnv(stack[i]) }

  /** Env::push: binds name to typ unless name is already bound (the first binding wins). */
  function Push(e: Env, typ: string, name: string): (r: Env)
    ensures name in r && r[name] == (if name in e then e[name] else typ)
    ensures r.Keys == e.Keys + {name}
    ensures forall n | n in e && n != name :: r[n] == e[n]
  {
    if name in e then e else e[name := typ]
  }

  /** Env::find: the type bound to name, or "" when there is none. With
      non-empty types, "" means exactly that the name is unbound. */
  function Find(e: Env, name: string): (r: string)
    ensures r != "" ==> name in e && e[name] == r
    ensures TypedEnv(e) ==> (r == "" <==> name !in e)
    ensures TypedEnv(e) && name in e ==> r == e[name]
  {
    if name in e then e[name] else ""
  }

  /** A second push of a bound name changes nothing. */
  lemma PushKeepsFirst(e: Env, t1: string, t2: string, name: string)
    ensures Push(Push(e, t1, name), t2, name) == Push(e, t1, name)
    ensures Find(Push(Push(e, t1, name), t2, name), name) == (if name in e then e[name] else t1)
  {
  }

  /** Name lookup across the stack, innermost scope first: with no open scope
      nothing is found, and a name the innermost scope binds resolves there. */
  function Resolve(stack: seq<Env>, name: string): (r: string)
    ensures stack == [] ==> r == ""
    ensures stack != [] && TypedEnv(stack[|stack| - 1]) && name in stack[|stack| - 1]
      ==> r == stack[|stack| - 1][name]
    decreases |stack|
  {
    if stack == [] then ""
    else
      var found := Find(stack[|stack| - 1], name);
      if found != "" then found else Resolve(stack[..|stack| - 1], name)
  }

  /** Scope i is the innermost scope that binds name. */
  predicate Innermost(stack: seq<Env>, name: string, i: int) {
    0 <= i < |stack| && name in stack[i] && forall j | i < j < |stack| :: name !in stack[j]
  }

  /** Lookup finds the type from the innermost scope that binds the name. */
  lemma {:induction false} ResolveInnermost(stack: seq<Env>, name: string, i: int)
    requires TypedStack(stack) && Innermost(stack, name, i)
    ensures Resolve(stack, name) == stack[i][name]
    decreases |stack|
  {
    var top := |stack| - 1;
    if i < top {
      var inner := stack[..top];
      assert Innermost(inner, name, i);
      ResolveInnermost(inner, name, i);
    }
  }

  /** Lookup fails exactly when no open scope binds the name. */
  lemma {:induction false} ResolveUnbound(stack: seq<Env>, name: string)
    requires TypedStack(stack)
    ensures Resolve(stack, name) == "" <==> forall i | 0 <= i < |stack| :: name !in stack[i]
    decreases |stack|
  {
    if stack != [] {
      var top := |stack| - 1;
      var inner := stack[..top];
      assert TypedStack(inner);
      ResolveUnbound(inner, name);
      assert forall i | 0 <= i < top :: inner[i] == stack[i];
    }
  }

  /** Whatever lookup returns is "" or a type bound in some open scope. */
  lemma {:induction false} ResolveBound(stack: seq<Env>, name: string)
    ensures Resolve(stack, name) == ""
         || exists i | 0 <= i < |stack| :: name in stack[i] && stack[i][name] == Resolve(stack, name)
    decreases |stack|
  {
    if stack != [] {
      var top := |stack| - 1;
      if Find(stack[top], name) == "" {
        var inner := stack[..top];
        ResolveBound(inner, name);
        if Resolve(inner, name) != "" {
          var i :| 0 <= i < |inner| && name in inner[i] && inner[i][name] == Resolve(inner, name);
          assert stack[i] == inner[i];
        }
      }
    }
  }
}
