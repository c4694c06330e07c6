/**
 * The Environment objects of jlox's interpreter (Environment.java is not part of
 * this model; its operations are the ones Interpeter.java calls: define, get,
 * assign, getAt, assignAt and the ancestor walk behind the last two).
 *
 * Environments live in an arena, a sequence of frames: the interpreter refers to
 * an environment by its position, and an environment's `enclosing` field is the
 * position of its parent. Every environment is created after the one it encloses,
 * so a parent link always points to an earlier frame; a link that does not is
 * treated as absent, which makes the chain walks below terminate.
 */
module Environments {
  import opened LoxValues
  import Ast
  import Wrappers

  /** One Environment: its `values` map and its `enclosing` environment (None for the globals). */
  datatype Frame = Frame(values: map<string, Value>, enclosing: Wrappers.Option<nat>)

  /** The enclosing environment of `env`, or None at the end of the chain. */
  function Parent(frames: seq<Frame>, env: nat): (p: Wrappers.Option<nat>)
    ensures p.Some? ==> p.value < env
  {
    if env < |frames| && frames[env].enclosing.Some? && frames[env].enclosing.value < env
    then Wrappers.Some(frames[env].enclosing.value)
    else Wrappers.None
  }

  /**
   * The environment that get and assign reach: the first one, walking from `env`
   * through the enclosing links, whose map holds `name`.
   */
  function Owner(frames: seq<Frame>, env: nat, name: string): (r: Wrappers.Option<nat>)
    ensures r.Some? ==> r.value <= env && r.value < |frames| && name in frames[r.value].values
    ensures env < |frames| && name in frames[env].values ==> r == Wrappers.Some(env)
    decreases env
  {
    if env >= |frames| then Wrappers.None
    else if name in frames[env].values then Wrappers.Some(env)
    else match Parent(frames, env)
      case None => Wrappers.None
      case Some(p) => Owner(frames, p, name)
  }

  /** define: bind (or rebind) `name` in environment `env` itself. */
  function Define(frames: seq<Frame>, env: nat, name: string, value: Value): (r: seq<Frame>)
    ensures |r| == |frames|
    ensures forall i :: 0 <= i < |r| ==> r[i].enclosing == frames[i].enclosing
  {
    if env < |frames| then frames[env := frames[env].(values := frames[env].values[name := value])]
    else frames
  }

  /** get: the value bound to `name` in the nearest environment that binds it; None where Java throws "Undefined variable". */
  function Get(frames: seq<Frame>, env: nat, name: string): Wrappers.Option<Value> {
    match Owner(frames, env, name)
    case None => Wrappers.None
    case Some(o) => Wrappers.Some(frames[o].values[name])
  }

  /**
   * assign: rebind `name` in the nearest environment that binds it, creating no
   * binding; None where Java throws "Undefined variable" (exactly where get would).
   */
  function Assign(frames: seq<Frame>, env: nat, name: string, value: Value): (r: Wrappers.Option<seq<Frame>>)
    ensures r.None? <==> Get(frames, env, name).None?
    ensures r.Some? ==> |r.value| == |frames|
    ensures r.Some? ==> forall i :: 0 <= i < |frames| ==> r.value[i].enclosing == frames[i].enclosing
  {
    match Owner(frames, env, name)
    case None => Wrappers.None
    case Some(o) => Wrappers.Some(frames[o := frames[o].(values := frames[o].values[name := value])])
  }

  /**
   * ancestor: the environment `distance` links out from `env`; None where Java
   * would dereference a null enclosing environment.
   */
  function Ancestor(frames: seq<Frame>, env: nat, distance: int): (r: Wrappers.Option<nat>)
    ensures r.Some? ==> r.value <= env && r.value < |frames|
    decreases distance
  {
    if env >= |frames| then Wrappers.None
    else if distance <= 0 then Wrappers.Some(env)
    else match Parent(frames, env)
      case None => Wrappers.None
      case Some(p) => Ancestor(frames, p, distance - 1)
  }

  /**
   * getAt: look `name` up in the ancestor's own map only; a missing key reads as
   * null (Map.get). None stands for the NullPointerException of a broken chain.
   */
  function GetAt(frames: seq<Frame>, env: nat, distance: int, name: string): Wrappers.Option<Value> {
    match Ancestor(frames, env, distance)
    case None => Wrappers.None
    case Some(a) => Wrappers.Some(if name in frames[a].values then frames[a].values[name] else Nil)
  }

  /** assignAt: bind `name` in the ancestor's own map (Map.put), whether or not it was bound. */
  function AssignAt(frames: seq<Frame>, env: nat, distance: int, name: string, value: Value): (r: Wrappers.Option<seq<Frame>>)
    ensures r.None? <==> Ancestor(frames, env, distance).None?
    ensures r.Some? ==> |r.value| == |frames|
    ensures r.Some? ==> forall i :: 0 <= i < |frames| ==> r.value[i].enclosing == frames[i].enclosing
  {
    match Ancestor(frames, env, distance)
    case None => Wrappers.None
    case Some(a) => Wrappers.Some(frames[a := frames[a].(values := frames[a].values[name := value])])
  }

  /** Two arenas with the same parent links. */
  predicate SameLinks(frames: seq<Frame>, other: seq<Frame>) {
    |frames| == |other| && forall i :: 0 <= i < |frames| ==> frames[i].enclosing == other[i].enclosing
  }

  /** The ancestor walk only follows parent links, so rebinding names never moves it. */
  lemma {:induction false} AncestorFollowsLinks(frames: seq<Frame>, other: seq<Frame>, env: nat, distance: int)
    requires SameLinks(frames, other)
    ensures Ancestor(other, env, distance) == Ancestor(frames, env, distance)
    decreases distance
  {
    if env < |frames| && distance > 0 {
      assert Parent(other, env) == Parent(frames, env);
      match Parent(frames, env)
      case None =>
      case Some(p) => AncestorFollowsLinks(frames, other, p, distance - 1);
    }
  }

  /** The get walk depends only on the links and on which frames hold `name`. */
  lemma {:induction false} OwnerFollowsBindings(frames: seq<Frame>, other: seq<Frame>, env: nat, name: string)
    requires SameLinks(frames, other)
    requires forall i :: 0 <= i < |frames| ==> (name in frames[i].values <==> name in other[i].values)
    ensures Owner(other, env, name) == Owner(frames, env, name)
    decreases env
  {
    if env < |frames| && name !in frames[env].values {
      assert Parent(other, env) == Parent(frames, env);
      match Parent(frames, env)
      case None =>
      case Some(p) => OwnerFollowsBindings(frames, other, p, name);
    }
  }

  /** After define, get in the same environment finds the new value. */
  lemma GetAfterDefine(frames: seq<Frame>, env: nat, name: string, value: Value)
    ensures env < |frames| ==> Get(Define(frames, env, name, value), env, name) == Wrappers.Some(value)
  {
  }

  /** define leaves every other name's lookup, from any environment, as it was. */
  lemma DefineKeepsOtherNames(frames: seq<Frame>, env: nat, name: string, value: Value, from: nat, other: string)
    requires other != name
    ensures Get(Define(frames, env, name, value), from, other) == Get(frames, from, other)
  {
    var after := Define(frames, env, name, value);
    OwnerFollowsBindings(frames, after, from, other);
  }

  /** A successful assign is seen by the next get of that name, and by no other name. */
  lemma GetAfterAssign(frames: seq<Frame>, env: nat, name: string, value: Value, other: string)
    requires Assign(frames, env, name, value).Some?
    ensures Get(Assign(frames, env, name, value).value, env, name) == Wrappers.Some(value)
    ensures other != name ==> Get(Assign(frames, env, name, value).value, env, other) == Get(frames, env, other)
  {
    var after := Assign(frames, env, name, value).value;
    OwnerFollowsBindings(frames, after, env, name);
    OwnerFollowsBindings(frames, after, env, other);
  }

  /** A successful assignAt is seen by getAt at the same distance. */
  lemma GetAtAfterAssignAt(frames: seq<Frame>, env: nat, distance: int, name: string, value: Value)
    requires AssignAt(frames, env, distance, name, value).Some?
    ensures GetAt(AssignAt(frames, env, distance, name, value).value, env, distance, name) == Wrappers.Some(value)
  {
    var after := AssignAt(frames, env, distance, name, value).value;
    AncestorFollowsLinks(frames, after, env, distance);
  }

  /**
   * getAt at the distance of the environment that binds `name` agrees with get:
   * this is what the resolver's distances are for.
   */
  lemma GetAtOwner(frames: seq<Frame>, env: nat, distance: int, name: string)
    requires Owner(frames, env, name).Some? && Ancestor(frames, env, distance) == Owner(frames, env, name)
    ensures GetAt(frames, env, distance, name) == Get(frames, env, name)
  {
  }
}
