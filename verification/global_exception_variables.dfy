/**
 Style/GlobalExceptionVariables: a reference to `$!`, `$@`, `$ERROR_INFO`
 or `$ERROR_POSITION` is allowed in a parameter default, a rescue modifier
 or a rescue clause; inside an ensure clause it is reported as extremely
 unsafe, and anywhere else it is reported with the generic message. No
 correction is offered.

 A reference is its variable name, its range, and its ancestors from the
 innermost outwards.
 */
module GlobalExceptionVariables {
  import opened SourceText
  import opened Syntax

  /** An ancestor node: its type, and whether one of its children is a `resbody` node. */
  datatype Ancestor = Ancestor(kind: Kind, hasResBodyChild: bool)

  /** A `gvar` node: `node.children.first`, its range, and `node.each_ancestor`. */
  datatype Reference = Reference(name: string, range: Range, ancestors: seq<Ancestor>)

  datatype Message =
    | EnsureMessage(variable: string)
    | GenericMessage(variable: string, context: string)

  /** `format(ENSURE_MSG, ...)` and `format(MSG, ...)` */
  function MessageText(m: Message): string {
    match m
    case EnsureMessage(v) =>
      "Using global exception variable `" + v + "` in an ensure block is extremely unsafe."
    case GenericMessage(v, c) =>
      "Avoid using global exception variable `" + v + "` in " + c
      + ". Use explicit exception handling with `rescue => error` instead."
  }

  const ExceptionVariables: seq<string> := ["$!", "$@", "$ERROR_INFO", "$ERROR_POSITION"]

  /** `in_parameter_default?`: an `args`, `optarg` or `kwoptarg` ancestor. */
  predicate InParameterDefault(ancestors: seq<Ancestor>) {
    exists a :: a in ancestors && a.kind in {Args, OptArg, KwOptArg}
  }

  /** `in_rescue_modifier?`: a `rescue` ancestor none of whose children is a `resbody`. */
  predicate InRescueModifier(ancestors: seq<Ancestor>) {
    exists a :: a in ancestors && a.kind == Rescue && !a.hasResBodyChild
  }

  /** `in_rescue_block?`: a `resbody` ancestor. */
  predicate InRescueBlock(ancestors: seq<Ancestor>) {
    exists a :: a in ancestors && a.kind == ResBody
  }

  /** `in_ensure_block?`: an `ensure` ancestor. */
  predicate InEnsureBlock(ancestors: seq<Ancestor>) {
    exists a :: a in ancestors && a.kind == Ensure
  }

  datatype Decision = Allowed | EnsureOffense | GenericOffense

  /** The early returns of `on_gvar`, in order. */
  function Decide(ref: Reference): Decision {
    if ref.name !in ExceptionVariables then Allowed
    else if InParameterDefault(ref.ancestors) then Allowed
    else if InRescueModifier(ref.ancestors) then Allowed
    else if InRescueBlock(ref.ancestors) then Allowed
    else if InEnsureBlock(ref.ancestors) then EnsureOffense
    else GenericOffense
  }

  /** `on_gvar`: at most one offense, over the reference itself, never with a fix. */
  function OnGvar(ref: Reference): (r: Option<Offense<Message>>)
    ensures r.Some? ==> r.value.range == ref.range && r.value.fix.None?
    ensures r.Some? ==> ref.name in ExceptionVariables
    ensures r.Some? ==> r.value.message.variable == ref.name
  {
    match Decide(ref)
    case Allowed => None
    case EnsureOffense => Some(Offense(ref.range, EnsureMessage(ref.name), None))
    case GenericOffense => Some(Offense(ref.range, GenericMessage(ref.name, "this context"), None))
  }

  /** Some ancestor allows the reference. */
  predicate AllowedContext(ancestors: seq<Ancestor>) {
    InParameterDefault(ancestors) || InRescueModifier(ancestors) || InRescueBlock(ancestors)
  }

  /**
   The three outcomes, each characterised in both directions: allowed
   contexts (checked before ensure) win over an enclosing ensure; an ensure
   gets the unsafe message; every other reference gets the generic message
   with context "this context".
   */
  lemma OnGvarOutcomes(ref: Reference)
    ensures OnGvar(ref).None? <==> ref.name !in ExceptionVariables || AllowedContext(ref.ancestors)
    ensures OnGvar(ref) == Some(Offense(ref.range, EnsureMessage(ref.name), None))
        <==> ref.name in ExceptionVariables && !AllowedContext(ref.ancestors) && InEnsureBlock(ref.ancestors)
    ensures OnGvar(ref) == Some(Offense(ref.range, GenericMessage(ref.name, "this context"), None))
        <==> ref.name in ExceptionVariables && !AllowedContext(ref.ancestors) && !InEnsureBlock(ref.ancestors)
  {
  }

  /** Only the four exception globals are ever examined. */
  lemma OtherGlobalsNeverFlagged(ref: Reference)
    requires ref.name != "$!" && ref.name != "$@" && ref.name != "$ERROR_INFO" && ref.name != "$ERROR_POSITION"
    ensures OnGvar(ref).None?
  {
  }

  /**
   Allowance survives wrapping: a reference that is allowed stays allowed
   whatever further ancestors enclose it, an enclosing `ensure` included.
   */
  lemma AllowedIsUpwardClosed(ref: Reference, outer: seq<Ancestor>)
    requires Decide(ref) == Allowed
    ensures Decide(ref.(ancestors := ref.ancestors + outer)) == Allowed
  {
    var wrapped := ref.ancestors + outer;
    if InParameterDefault(ref.ancestors) {
      var a :| a in ref.ancestors && a.kind in {Args, OptArg, KwOptArg};
      assert a in wrapped;
    } else if InRescueModifier(ref.ancestors) {
      var a :| a in ref.ancestors && a.kind == Rescue && !a.hasResBodyChild;
      assert a in wrapped;
    } else if InRescueBlock(ref.ancestors) {
      var a :| a in ref.ancestors && a.kind == ResBody;
      assert a in wrapped;
    }
  }

  /** The decision depends on which ancestors there are, not on their order. */
  lemma OrderOfAncestorsIrrelevant(ref: Reference, other: seq<Ancestor>)
    requires multiset(other) == multiset(ref.ancestors)
    ensures Decide(ref.(ancestors := other)) == Decide(ref)
  {
    forall a ensures a in other <==> a in ref.ancestors {
      assert a in other <==> a in multiset(other);
      assert a in ref.ancestors <==> a in multiset(ref.ancestors);
    }
  }

  // ---------------------------------------------------------------------
  // Scenarios from the rule's tests

  /** Ancestors of none of the allowing types never allow a reference. */
  lemma NoAllowingAncestor(ancestors: seq<Ancestor>)
    requires forall i :: 0 <= i < |ancestors| ==> ancestors[i].kind !in {Args, OptArg, KwOptArg, Rescue, ResBody}
    ensures !AllowedContext(ancestors)
  {
  }

  /**
   `begin; risky_operation; ensure; log($!.message) if $!; end`: both
   references, the one under `log(...)` and the condition, are reported
   with the unsafe message.
   */
  lemma ScenarioEnsure(r1: Range, r2: Range)
    ensures
      var kwbegin := Ancestor(KwBegin, false);
      var ensure := Ancestor(Ensure, false);
      var cond := Ancestor(If, false);
      var message := Ancestor(Send, false);
      var log := Ancestor(Send, false);
      && OnGvar(Reference("$!", r1, [message, log, cond, ensure, kwbegin]))
         == Some(Offense(r1, EnsureMessage("$!"), None))
      && OnGvar(Reference("$!", r2, [cond, ensure, kwbegin]))
         == Some(Offense(r2, EnsureMessage("$!"), None))
  {
    var ensure := Ancestor(Ensure, false);
    var outer := [Ancestor(Send, false), Ancestor(Send, false), Ancestor(If, false), ensure, Ancestor(KwBegin, false)];
    var inner := [Ancestor(If, false), ensure, Ancestor(KwBegin, false)];
    assert ExceptionVariables[0] == "$!";
    NoAllowingAncestor(outer);
    NoAllowingAncestor(inner);
    assert ensure == outer[3] && ensure == inner[1];
  }

  /** `begin; risky_operation; rescue; puts $!.message; end`: allowed inside the rescue clause. */
  lemma ScenarioRescueClause(r: Range)
    ensures
      var ancestors := [Ancestor(Send, false), Ancestor(Send, false), Ancestor(ResBody, false),
                        Ancestor(Rescue, true), Ancestor(KwBegin, false)];
      OnGvar(Reference("$!", r, ancestors)).None?
  {
    var resbody := Ancestor(ResBody, false);
    assert resbody in [Ancestor(Send, false), Ancestor(Send, false), resbody,
                       Ancestor(Rescue, true), Ancestor(KwBegin, false)];
  }

  /** `def foo(error = $!)` and `def bar(error: $!)`: allowed as parameter defaults. */
  lemma ScenarioParameterDefaults(r: Range)
    ensures OnGvar(Reference("$!", r, [Ancestor(OptArg, false), Ancestor(Args, false), Ancestor(Def, false)])).None?
    ensures OnGvar(Reference("$!", r, [Ancestor(KwOptArg, false), Ancestor(Args, false), Ancestor(Def, false)])).None?
  {
    assert Ancestor(OptArg, false) in [Ancestor(OptArg, false), Ancestor(Args, false), Ancestor(Def, false)];
    assert Ancestor(KwOptArg, false) in [Ancestor(KwOptArg, false), Ancestor(Args, false), Ancestor(Def, false)];
  }

  /** `def log_last_error; puts $!.message if $!; end`: both references get the generic message. */
  lemma ScenarioUnscoped(r1: Range, r2: Range)
    ensures
      OnGvar(Reference("$!", r1, [Ancestor(Send, false), Ancestor(Send, false), Ancestor(If, false), Ancestor(Def, false)]))
      == Some(Offense(r1, GenericMessage("$!", "this context"), None))
    ensures
      OnGvar(Reference("$!", r2, [Ancestor(If, false), Ancestor(Def, false)]))
      == Some(Offense(r2, GenericMessage("$!", "this context"), None))
  {
    var outer := [Ancestor(Send, false), Ancestor(Send, false), Ancestor(If, false), Ancestor(Def, false)];
    var inner := [Ancestor(If, false), Ancestor(Def, false)];
    assert ExceptionVariables[0] == "$!";
    NoAllowingAncestor(outer);
    NoAllowingAncestor(inner);
    assert !InEnsureBlock(outer) && !InEnsureBlock(inner);
  }
}
