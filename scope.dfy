/**
 * Variable scopes: a `Scope` maps names to values, and `Scopes` is the stack the
 * interpreter pushes on loop entry and pops on loop exit, with lookup innermost
 * first and identifier resolution along dotted paths.
 */
module Scoping {
  import opened Diag
  import opened Paths
  import opened Values
  import opened Ast

  /** One scope: a name-to-value map. */
  datatype Scope = Scope(bindings: map<string, Value>)
  {
    /** `Scope::get`. */
    function Get(name: string): (r: Option<Value>)
      ensures r.Some? <==> name in bindings
      ensures r.Some? ==> r.value == bindings[name]
    {
      if name in bindings then Some(bindings[name]) else None
    }

    /** `Scope::define`: bind `name`, replacing an earlier binding of it; no other name changes. */
    function Define(name: string, v: Value): (s: Scope)
      ensures s.Get(name) == Some(v)
      ensures forall n :: n != name ==> s.Get(n) == Get(n)
      ensures s.bindings.Keys == bindings.Keys + {name}
    {
      Scope(bindings[name := v])
    }
  }

  const EmptyScope: Scope := Scope(map[])

  /** The error `get` reports for a name no scope binds. */
  function UnknownVariable(name: string): Error
  {
    Message("unknown variable: " + name)
  }

  /**
   * Position of the most recently saved scope that binds `name`, or -1 when none
   * does: every scope pushed after it leaves the name unbound.
   */
  function InnermostIndex(saved: seq<Scope>, name: string): (k: int)
    ensures -1 <= k < |saved|
    ensures k >= 0 ==> name in saved[k].bindings
    ensures forall j :: k < j < |saved| ==> name !in saved[j].bindings
  {
    if saved == [] then -1
    else if name in saved[|saved| - 1].bindings then |saved| - 1
    else
      var prefix := saved[..|saved| - 1];
      assert forall j :: 0 <= j < |prefix| ==> prefix[j] == saved[j];
      InnermostIndex(prefix, name)
  }

  /** A snapshot of the scope stack: the active scope and the scopes saved beneath it. */
  datatype ScopeStack = ScopeStack(top: Scope, saved: seq<Scope>)
  {
    /** `Scopes::get`: the binding of the innermost scope that has one, `top` first. */
    function Get(name: string): (r: Result<Value>)
      ensures name in top.bindings ==> r == Ok(top.bindings[name])
      ensures name !in top.bindings && r.Ok? ==>
        exists k :: 0 <= k < |saved| && name in saved[k].bindings && r.value == saved[k].bindings[name]
          && forall j :: k < j < |saved| ==> name !in saved[j].bindings
      ensures r.Err? <==> name !in top.bindings && forall k :: 0 <= k < |saved| ==> name !in saved[k].bindings
      ensures r.Err? ==> r.error == UnknownVariable(name)
    {
      match top.Get(name)
      case Some(v) => Ok(v)
      case None =>
        var k := InnermostIndex(saved, name);
        if k < 0 then Err(UnknownVariable(name)) else Ok(saved[k].bindings[name])
    }

    /** `enter`: the active scope is saved, and a fresh empty one becomes active. */
    function Enter(): (s: ScopeStack)
      ensures s.top == EmptyScope
      ensures |s.saved| == |saved| + 1 && s.saved[..|saved|] == saved && s.saved[|saved|] == top
    {
      ScopeStack(EmptyScope, saved + [top])
    }

    /** `exit`: the most recently saved scope becomes active again; the active one is dropped. */
    function Exit(): (s: ScopeStack)
      requires saved != []
      ensures |s.saved| == |saved| - 1
      ensures s.top == saved[|saved| - 1] && saved == s.saved + [s.top]
    {
      ScopeStack(saved[|saved| - 1], saved[..|saved| - 1])
    }

    /** `scopes.top.define(name, v)`. */
    function DefineTop(name: string, v: Value): (s: ScopeStack)
      ensures s.saved == saved
      ensures s.Get(name) == Ok(v)
      ensures forall n :: n != name ==> s.Get(n) == Get(n)
    {
      ScopeStack(top.Define(name, v), saved)
    }

    /**
     * `resolve_identifier`: drop the sigil, look the first dotted piece up as a
     * variable, and walk the value along the rest of the path; None when there is
     * no first piece, the variable is unknown, or the walk fails.
     */
    function ResolveIdentifier(id: string): (r: Option<Value>)
      requires |id| >= 1
      ensures PieceEnd(id[1..], 0) == 0 ==> r.None?
      ensures r.Some? ==> Get(id[1..][..PieceEnd(id[1..], 0)]).Ok?
    {
      var path := id[1..];
      match NextPiece(path, 0)
      case (None, _) => None
      case (Some(name), next) => (
        match Get(name)
        case Ok(v) => v.Resolve(path, next)
        case Err(_) => None)
    }

    /** `Scopes::resolve`: a literal is itself; an identifier is resolved. */
    function Resolve(expression: Expression): (r: Option<Value>)
      requires expression.Identifier? ==> |expression.id| >= 1
      ensures expression.Literal? ==> r == Some(expression.value)
    {
      match expression
      case Literal(v) => Some(v)
      case Identifier(id) => ResolveIdentifier(id)
    }
  }

  /** Entering a scope and leaving it again restores the stack exactly. */
  lemma {:induction false} EnterThenExit(st: ScopeStack)
    ensures st.Enter().Exit() == st
  {
  }

  /** A freshly entered scope hides nothing: every lookup answers as before. */
  lemma {:induction false} EnterKeepsLookups(st: ScopeStack, name: string)
    ensures st.Enter().Get(name) == st.Get(name)
  {
    var saved := st.saved + [st.top];
    assert saved[..|saved| - 1] == st.saved;
  }

  /** The dotted-path reading of `resolve_identifier`: the head segment names a variable, the tail is walked. */
  lemma {:induction false} ResolveIdentifierBySegments(st: ScopeStack, id: string)
    requires |id| >= 1
    ensures var segs := Segments(id[1..]);
      st.ResolveIdentifier(id) ==
        if segs == [] then None
        else match st.Get(segs[0])
          case Ok(v) => Walk(v, segs[1..])
          case Err(_) => None
  {
    var path := id[1..];
    PiecesAreSegments(path, 0);
    assert path[0..] == path;
    match NextPiece(path, 0)
    case (None, _) =>
    case (Some(name), next) =>
      assert Pieces(path, 0) == [name] + Pieces(path, next);
      match st.Get(name)
      case Ok(v) => ResolveFollowsPieces(v, path, next);
      case Err(_) =>
  }

  /** The live scope stack: the active scope and the saved ones, last pushed last. */
  class Scopes {
    var top: Scope
    var scopes: seq<Scope>

    function State(): ScopeStack
      reads this
    {
      ScopeStack(top, scopes)
    }

    /** `Scopes::new`: one empty scope and nothing saved. */
    constructor ()
      ensures State() == ScopeStack(EmptyScope, [])
    {
      top := EmptyScope;
      scopes := [];
    }

    method Enter()
      modifies this
      ensures State() == old(State()).Enter()
    {
      scopes := scopes + [top];
      top := EmptyScope;
    }

    /** `exit`, which the source lets panic when nothing was entered. */
    method Exit()
      requires scopes != []
      modifies this
      ensures State() == old(State()).Exit()
    {
      top := scopes[|scopes| - 1];
      scopes := scopes[..|scopes| - 1];
    }

    method Define(name: string, v: Value)
      modifies this
      ensures State() == old(State()).DefineTop(name, v)
    {
      top := top.Define(name, v);
    }

    /** `Scopes::get`: try `top`, then the saved scopes from the last pushed down. */
    method Get(name: string) returns (r: Result<Value>)
      ensures r == State().Get(name)
    {
      var found := top.Get(name);
      if found.Some? {
        return Ok(found.value);
      }
      var k := |scopes|;
      while k > 0
        invariant 0 <= k <= |scopes|
        invariant forall j :: k <= j < |scopes| ==> name !in scopes[j].bindings
      {
        found := scopes[k - 1].Get(name);
        if found.Some? {
          return Ok(found.value);
        }
        k := k - 1;
      }
      r := Err(UnknownVariable(name));
    }

    /** `resolve_identifier`, splitting the path with a live `PathSplitter`. */
    method ResolveIdentifier(id: string) returns (r: Option<Value>)
      requires |id| >= 1
      ensures r == State().ResolveIdentifier(id)
    {
      var path := new PathSplitter(id[1..]);
      var name := path.Next();
      if name.None? {
        return None;
      }
      var v := Get(name.value);
      if v.Err? {
        return None;
      }
      r := ResolveAlong(v.value, path);
    }

    /** `Scopes::resolve`. */
    method Resolve(expression: Expression) returns (r: Option<Value>)
      requires expression.Identifier? ==> |expression.id| >= 1
      ensures r == State().Resolve(expression)
    {
      match expression
      case Literal(v) =>
        r := Some(v);
      case Identifier(id) =>
        r := ResolveIdentifier(id);
    }
  }

  /** The stack of the lookup examples: `dict` bound to an object holding `inner`. */
  function DictStack(): ScopeStack
  {
    ScopeStack(Scope(map["dict" := Object(map["inner" := Integer(1234)])]), [])
  }

  /** `$dict.inner` reaches the nested entry. */
  lemma {:induction false} NestedLookupExample()
    ensures DictStack().ResolveIdentifier("$dict.inner") == Some(Integer(1234))
  {
    var inner := Object(map["inner" := Integer(1234)]);
    var path := "$dict.inner"[1..];
    assert path == "dict.inner";
    assert PieceEnd(path, 0) == 4 && path[0..4] == "dict";
    assert NextPiece(path, 0) == (Some("dict"), 5);
    assert PieceEnd(path, 5) == 10 && path[5..10] == "inner";
    assert NextPiece(path, 5) == (Some("inner"), 10);
    assert NextPiece(path, 10) == (None, 10);
    assert DictStack().Get("dict") == Ok(inner);
    assert Integer(1234).Resolve(path, 10) == Some(Integer(1234));
    assert inner.Resolve(path, 5) == Some(Integer(1234));
  }

  /** `$dict.missing` names a key the object lacks, and resolves to nothing. */
  lemma {:induction false} MissingKeyExample()
    ensures DictStack().ResolveIdentifier("$dict.missing") == None
  {
    var missing := "$dict.missing"[1..];
    assert missing == "dict.missing";
    assert PieceEnd(missing, 0) == 4 && missing[0..4] == "dict";
    assert NextPiece(missing, 0) == (Some("dict"), 5);
    assert PieceEnd(missing, 5) == 12 && missing[5..12] == "missing";
    assert NextPiece(missing, 5) == (Some("missing"), 12);
  }

  /** `$nothing` names no variable, and resolves to nothing. */
  lemma {:induction false} UnboundExample()
    ensures DictStack().ResolveIdentifier("$nothing") == None
  {
    var nothing := "$nothing"[1..];
    assert nothing == "nothing";
    assert PieceEnd(nothing, 0) == 7 && nothing[0..7] == "nothing";
    assert NextPiece(nothing, 0) == (Some("nothing"), 7);
    assert DictStack().Get("nothing").Err?;
  }
}
