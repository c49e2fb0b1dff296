/**
 Layout/BlockDelimiterSpacing: the spacing before the `{` of a brace block
 depends on what the block is part of. Lambdas and procs, method chains and
 sub-expressions take no space; a standalone call takes exactly one space,
 after its closing parenthesis when it has one.

 A block is described by the facts the rule queries of its node, its call
 and its parent; the source is the buffer's text.
 */
module BlockDelimiterSpacing {
  import opened SourceText
  import opened Syntax

  /** The receiver of the block's call: its node type, and for a constant its name and whether it has a scope (`Foo::Proc`, `::Proc`). */
  datatype Receiver = Receiver(kind: Kind, constName: string, scoped: bool)

  /**
   The block's parent node: its type, whether it is itself a brace block,
   and whether its receiver equals this block. Nodes compare by structure
   (type and children), not by identity, so an equal block elsewhere also
   sets the flag.
   */
  datatype Parent = Parent(kind: Kind, braces: bool, receiverIsThisBlock: bool)

  datatype BlockFacts = BlockFacts(
    braces: bool,                  // `node.braces?`
    stabbyLambda: bool,            // `send_node.lambda?`
    methodName: string,            // `send_node.method_name`
    receiver: Option<Receiver>,    // `send_node.receiver`
    parenthesized: bool,           // `send_node.parenthesized?`
    parenEnd: Option<nat>,         // `send_node.loc.end.end_pos`
    braceBegin: nat,               // `node.loc.begin.begin_pos`
    parent: Option<Parent>)        // `node.parent`

  /**
   What the parser guarantees of the positions: the block's opening
   delimiter is in the buffer (and is `{` for a brace block), and the call's
   closing delimiter ends no later than it.
   */
  predicate WellFormed(f: BlockFacts, source: string) {
    && f.braceBegin < |source|
    && (f.braces ==> source[f.braceBegin] == '{')
    && (f.parenEnd.Some? ==> f.parenEnd.value <= f.braceBegin)
  }

  datatype Message = AddSpace | RemoveSpace | RemoveSpaceLambda | RemoveSpaceExpression

  function MessageText(m: Message): string {
    match m
    case AddSpace => "Add a space before the opening brace."
    case RemoveSpace => "Remove space before the opening brace for method chains."
    case RemoveSpaceLambda => "Remove space before the opening brace for lambdas/procs."
    case RemoveSpaceExpression => "Remove space before the opening brace for expressions."
  }

  // ---------------------------------------------------------------------
  // The classifier

  /** The five spacing policies, in the order `on_block` tries them. */
  datatype Policy = LambdaOrProc | MethodChain | Expression | Parenthesized | Bare

  /** `lambda_or_proc?`: `->`, `lambda`, `proc`, or `new` sent to an unscoped `Proc` constant. */
  predicate IsLambdaOrProc(f: BlockFacts) {
    || f.stabbyLambda
    || f.methodName == "lambda"
    || f.methodName == "proc"
    || (&& f.methodName == "new"
        && f.receiver.Some?
        && f.receiver.value.kind == Const
        && f.receiver.value.constName == "Proc"
        && !f.receiver.value.scoped)
  }

  /** `part_of_method_chain?`: a call is sent to the block, or the block's call has a receiver. */
  predicate IsPartOfMethodChain(f: BlockFacts) {
    || (f.parent.Some? && f.parent.value.kind == Send && f.parent.value.receiverIsThisBlock)
    || f.receiver.Some?
  }

  /**
   `part_of_expression?`: the block has a parent that is not a statement
   sequence (`begin`), not a `do ... end` block and not `begin ... end`.
   */
  predicate IsPartOfExpression(f: BlockFacts) {
    && f.parent.Some?
    && f.parent.value.kind != Begin
    && !(f.parent.value.kind == Block && !f.parent.value.braces)
    && f.parent.value.kind != KwBegin
  }

  /** `has_parentheses?` */
  predicate HasParentheses(f: BlockFacts) {
    f.parenthesized
  }

  /** The `if`/`elsif` chain of `on_block`. */
  function Classify(f: BlockFacts): Policy {
    if IsLambdaOrProc(f) then LambdaOrProc
    else if IsPartOfMethodChain(f) then MethodChain
    else if IsPartOfExpression(f) then Expression
    else if HasParentheses(f) then Parenthesized
    else Bare
  }

  /** The condition under which each policy is eligible. */
  predicate Applies(f: BlockFacts, p: Policy) {
    match p
    case LambdaOrProc => IsLambdaOrProc(f)
    case MethodChain => IsPartOfMethodChain(f)
    case Expression => IsPartOfExpression(f)
    case Parenthesized => HasParentheses(f)
    case Bare => true
  }

  function Rank(p: Policy): nat {
    match p
    case LambdaOrProc => 0
    case MethodChain => 1
    case Expression => 2
    case Parenthesized => 3
    case Bare => 4
  }

  /** Every block gets exactly one policy: the first eligible one in priority order. */
  lemma ClassifyIsFirstMatch(f: BlockFacts)
    ensures Applies(f, Classify(f))
    ensures forall q :: Rank(q) < Rank(Classify(f)) ==> !Applies(f, q)
    ensures forall p :: Applies(f, p) && (forall q :: Rank(q) < Rank(p) ==> !Applies(f, q)) ==> p == Classify(f)
  {
    forall p | Applies(f, p) && (forall q :: Rank(q) < Rank(p) ==> !Applies(f, q))
      ensures p == Classify(f)
    {
      assert !Applies(f, Classify(f)) || Rank(Classify(f)) >= Rank(p);
      assert Rank(p) >= Rank(Classify(f)) || !Applies(f, p);
    }
  }

  /** The recognised lambda and proc spellings, and a look-alike that is not one. */
  lemma LambdaOrProcForms(f: BlockFacts)
    ensures f.stabbyLambda ==> Classify(f) == LambdaOrProc
    ensures f.methodName == "lambda" || f.methodName == "proc" ==> Classify(f) == LambdaOrProc
    ensures f.methodName == "new" && f.receiver == Some(Receiver(Const, "Proc", false)) ==> Classify(f) == LambdaOrProc
    ensures !f.stabbyLambda && f.methodName == "new" && f.receiver == Some(Receiver(Const, "Proc", true))
        ==> Classify(f) == MethodChain
  {
  }

  /**
   A chained block is `MethodChain` even when its call is parenthesised, and
   a block whose parent is a brace block is an `Expression`.
   */
  lemma ChainAndExpressionPrecedence(f: BlockFacts)
    requires !IsLambdaOrProc(f)
    ensures f.parent.Some? && f.parent.value.kind == Send && f.parent.value.receiverIsThisBlock ==> Classify(f) == MethodChain
    ensures f.receiver.None? && f.parent == Some(Parent(Block, true, false)) ==> Classify(f) == Expression
    ensures f.receiver.None? && (f.parent.None? || f.parent.value.kind in {Begin, KwBegin} || f.parent == Some(Parent(Block, false, false)))
        ==> Classify(f) == (if f.parenthesized then Parenthesized else Bare)
  {
  }

  // ---------------------------------------------------------------------
  // The whitespace run before the brace

  /** The start of the maximal run of `/\s/` characters that ends at `p`. */
  function RunStart(s: string, p: nat): (start: nat)
    requires p <= |s|
    ensures start <= p
    ensures forall k :: start <= k < p ==> IsSpace(s[k])
    ensures start == 0 || !IsSpace(s[start - 1])
  {
    if p > 0 && IsSpace(s[p - 1]) then RunStart(s, p - 1) else p
  }

  /** The backward scan of the `check_*` methods: while the character before `start` is whitespace, step back. */
  method ScanWhitespaceBack(s: string, from: nat) returns (start: nat)
    requires from <= |s|
    ensures start == RunStart(s, from)
  {
    start := from;
    while start > 0 && IsSpace(s[start - 1])
      invariant start <= from
      invariant RunStart(s, start) == RunStart(s, from)
    {
      start := start - 1;
    }
  }

  // ---------------------------------------------------------------------
  // The checks, as functions of the buffer

  /**
   The remove-space check: if the character before the brace is a space,
   report the whole whitespace run before the brace and delete it.
   */
  function RemoveSpaceCheck(s: string, b: nat, m: Message): Option<Offense<Message>>
    requires b <= |s|
  {
    if b == 0 then None
    else if s[b - 1] != ' ' then None
    else
      var range := Range(RunStart(s, b), b);
      Some(Offense(range, m, Some(Edit(range, ""))))
  }

  /**
   `check_no_space_before_brace`: the remove-space check, except when the
   call's closing delimiter ends right at the brace.
   */
  function ChainCheck(s: string, b: nat, parenEnd: Option<nat>): Option<Offense<Message>>
    requires b <= |s|
  {
    if b == 0 then None
    else if s[b - 1] != ' ' then None
    else if parenEnd.Some? && parenEnd.value == b then None
    else RemoveSpaceCheck(s, b, RemoveSpace)
  }

  /**
   `check_space_after_parentheses`: the gap between `)` and `{` must be one
   space. An empty gap gets a space inserted before the brace; a gap of
   other whitespace is replaced by one space; any other gap is left alone.
   */
  function ParenthesesCheck(s: string, b: nat, parenEnd: Option<nat>): Option<Offense<Message>>
    requires b < |s|
    requires parenEnd.Some? ==> parenEnd.value <= b
  {
    if parenEnd.None? then None
    else
      var gap := s[parenEnd.value..b];
      if gap == " " then None
      else if gap == "" then Some(Offense(Range(b, b + 1), AddSpace, Some(Edit(Range(b, b), " "))))
      else if AllSpace(gap) then
        Some(Offense(Range(parenEnd.value, b), AddSpace, Some(Edit(Range(parenEnd.value, b), " "))))
      else None
  }

  /** `check_space_before_brace`: unless the brace is at offset 0 or follows a space, insert one. */
  function BareCheck(s: string, b: nat): Option<Offense<Message>>
    requires b < |s|
  {
    if b == 0 then None
    else if s[b - 1] == ' ' then None
    else Some(Offense(Range(b, b + 1), AddSpace, Some(Edit(Range(b, b), " "))))
  }

  /** What `on_block` reports for one block. */
  function Verdict(f: BlockFacts, s: string): (r: Option<Offense<Message>>)
    requires WellFormed(f, s)
    ensures !f.braces ==> r.None?
    ensures r.Some? ==> r.value.fix.Some? && ValidRange(s, r.value.fix.value.range)
    ensures r.Some? ==> ValidRange(s, r.value.range)
  {
    if !f.braces then None
    else
      match Classify(f)
      case LambdaOrProc => RemoveSpaceCheck(s, f.braceBegin, RemoveSpaceLambda)
      case MethodChain => ChainCheck(s, f.braceBegin, f.parenEnd)
      case Expression => RemoveSpaceCheck(s, f.braceBegin, RemoveSpaceExpression)
      case Parenthesized => ParenthesesCheck(s, f.braceBegin, f.parenEnd)
      case Bare => BareCheck(s, f.braceBegin)
  }

  // ---------------------------------------------------------------------
  // The rule

  /** `check_no_space_for_lambda` */
  method CheckNoSpaceForLambda(s: string, b: nat) returns (o: Option<Offense<Message>>)
    requires b <= |s|
    ensures o == RemoveSpaceCheck(s, b, RemoveSpaceLambda)
  {
    if b == 0 {
      return None;
    }
    var charBeforePos := b - 1;
    if s[charBeforePos] != ' ' {
      return None;
    }
    var start := ScanWhitespaceBack(s, charBeforePos);
    var range := Range(start, b);
    o := Some(Offense(range, RemoveSpaceLambda, Some(Edit(range, ""))));
  }

  /** `check_no_space_for_expression` */
  method CheckNoSpaceForExpression(s: string, b: nat) returns (o: Option<Offense<Message>>)
    requires b <= |s|
    ensures o == RemoveSpaceCheck(s, b, RemoveSpaceExpression)
  {
    if b == 0 {
      return None;
    }
    var charBeforePos := b - 1;
    if s[charBeforePos] != ' ' {
      return None;
    }
    var start := ScanWhitespaceBack(s, charBeforePos);
    var range := Range(start, b);
    o := Some(Offense(range, RemoveSpaceExpression, Some(Edit(range, ""))));
  }

  /** `check_no_space_before_brace` */
  method CheckNoSpaceBeforeBrace(s: string, b: nat, parenEnd: Option<nat>) returns (o: Option<Offense<Message>>)
    requires b <= |s|
    ensures o == ChainCheck(s, b, parenEnd)
  {
    if b == 0 {
      return None;
    }
    var charBeforePos := b - 1;
    if s[charBeforePos] != ' ' {
      return None;
    }
    if parenEnd.Some? && parenEnd.value == charBeforePos + 1 {
      return None;
    }
    var start := ScanWhitespaceBack(s, charBeforePos);
    var range := Range(start, b);
    o := Some(Offense(range, RemoveSpace, Some(Edit(range, ""))));
  }

  /** `on_block`: skip `do ... end` blocks, classify, and run the policy's check. */
  method OnBlock(f: BlockFacts, s: string) returns (o: Option<Offense<Message>>)
    requires WellFormed(f, s)
    ensures o == Verdict(f, s)
  {
    if !f.braces {
      return None;
    }
    if IsLambdaOrProc(f) {
      o := CheckNoSpaceForLambda(s, f.braceBegin);
    } else if IsPartOfMethodChain(f) {
      o := CheckNoSpaceBeforeBrace(s, f.braceBegin, f.parenEnd);
    } else if IsPartOfExpression(f) {
      o := CheckNoSpaceForExpression(s, f.braceBegin);
    } else if HasParentheses(f) {
      o := ParenthesesCheck(s, f.braceBegin, f.parenEnd);
    } else {
      o := BareCheck(s, f.braceBegin);
    }
  }

  // ---------------------------------------------------------------------
  // Properties of the checks

  /**
   The remove-space check fires exactly when a literal space precedes the
   brace (a lone tab is not flagged); it then reports the maximal whitespace
   run ending at the brace, and its fix deletes exactly that run.
   */
  lemma RemoveSpaceFiresIff(s: string, b: nat, m: Message)
    requires b <= |s|
    ensures RemoveSpaceCheck(s, b, m).Some? <==> b > 0 && s[b - 1] == ' '
    ensures RemoveSpaceCheck(s, b, m).Some? ==>
      var o := RemoveSpaceCheck(s, b, m).value;
      && o.message == m
      && o.range.end == b
      && o.range.begin < b
      && (forall k :: o.range.begin <= k < b ==> IsSpace(s[k]))
      && (o.range.begin == 0 || !IsSpace(s[o.range.begin - 1]))
      && o.fix == Some(Edit(o.range, ""))
  {
  }

  /**
   After the removal fix the brace follows a non-whitespace character (or
   starts the buffer), and nothing else in the buffer has changed.
   */
  lemma RemovalLeavesBraceTight(s: string, b: nat, m: Message)
    requires b < |s|
    requires RemoveSpaceCheck(s, b, m).Some?
    ensures
      var o := RemoveSpaceCheck(s, b, m).value;
      var s' := Apply(s, o.fix.value);
      var b' := o.range.begin;
      && s' == s[..b'] + s[b..]
      && b' < |s'| && s'[b'] == s[b]
      && (b' == 0 || !IsSpace(s'[b' - 1]))
      && RemoveSpaceCheck(s', b', m).None?
  {
    var o := RemoveSpaceCheck(s, b, m).value;
    var b' := o.range.begin;
    var s' := Apply(s, o.fix.value);
    assert s' == s[..b'] + s[b..];
    if b' > 0 {
      assert s'[b' - 1] == s[b' - 1];
    }
  }

  /**
   The guard of `check_no_space_before_brace` that skips a space right
   after the call's closing parenthesis never fires: a space was already
   required at that position, and the parenthesis ends with `)`.
   */
  lemma ChainGuardNeverFires(s: string, b: nat, parenEnd: Option<nat>)
    requires b <= |s|
    requires parenEnd.Some? ==> 0 < parenEnd.value <= |s| && s[parenEnd.value - 1] == ')'
    ensures ChainCheck(s, b, parenEnd) == RemoveSpaceCheck(s, b, RemoveSpace)
  {
  }

  /**
   The parenthesised check: no offense for a one-space gap or a gap with a
   non-whitespace character; otherwise the fix turns the gap into exactly
   one space.
   */
  lemma ParenthesesGapBecomesOneSpace(s: string, b: nat, pe: nat)
    requires pe <= b < |s|
    ensures ParenthesesCheck(s, b, Some(pe)).Some? <==> s[pe..b] == "" || (AllSpace(s[pe..b]) && s[pe..b] != " ")
    ensures s[pe..b] == " " ==> ParenthesesCheck(s, b, Some(pe)).None?
    ensures s[pe..b] != "" && !AllSpace(s[pe..b]) ==> ParenthesesCheck(s, b, Some(pe)).None?
    ensures ParenthesesCheck(s, b, Some(pe)).Some? ==>
      var o := ParenthesesCheck(s, b, Some(pe)).value;
      var s' := Apply(s, o.fix.value);
      && o.message == AddSpace
      && (s[pe..b] == "" ==> o.range == Range(b, b + 1))
      && (s[pe..b] != "" ==> o.range == Range(pe, b))
      && s' == s[..pe] + " " + s[b..]
      && s'[pe + 1] == s[b]
      && s'[pe..pe + 1] == " "
      && ParenthesesCheck(s', pe + 1, Some(pe)).None?
  {
    var c := ParenthesesCheck(s, b, Some(pe));
    if c.Some? {
      var s' := Apply(s, c.value.fix.value);
      if s[pe..b] == "" {
        assert pe == b;
      }
      assert s' == s[..pe] + " " + s[b..];
      assert s'[pe..pe + 1] == " ";
    }
  }

  /**
   The bare check fires exactly when the brace is not at offset 0 and the
   character before it is not a space; its fix inserts one space, after
   which the check is satisfied.
   */
  lemma BareInsertsOneSpace(s: string, b: nat)
    requires b < |s|
    ensures BareCheck(s, b).Some? <==> b > 0 && s[b - 1] != ' '
    ensures BareCheck(s, b).Some? ==>
      var o := BareCheck(s, b).value;
      var s' := Apply(s, o.fix.value);
      && o.range == Range(b, b + 1)
      && o.message == AddSpace
      && s' == s[..b] + " " + s[b..]
      && s'[b] == ' ' && s'[b + 1] == s[b]
      && BareCheck(s', b + 1).None?
  {
    if BareCheck(s, b).Some? {
      var s' := Apply(s, BareCheck(s, b).value.fix.value);
      assert s' == s[..b] + " " + s[b..];
    }
  }

  /** The block as it stands after `e` has been applied: its brace has moved with the edit. */
  function Shifted(f: BlockFacts, e: Edit): BlockFacts
    requires e.range.end <= f.braceBegin
  {
    f.(braceBegin := f.braceBegin - (e.range.end - e.range.begin) + |e.text|)
  }

  /**
   The facts that make a fix idempotent: the edit lies before the brace,
   the edited buffer still holds the block, checking it again reports
   nothing, and the brace sits where its policy wants it: tight against what
   precedes it for lambdas, chains and expressions, one space after what
   precedes it for standalone calls.
   */
  predicate FixSettles(f: BlockFacts, s: string)
    requires WellFormed(f, s)
    requires Verdict(f, s).Some?
  {
    var e := Verdict(f, s).value.fix.value;
    && e.range.end <= f.braceBegin
    && var s', b' := Apply(s, e), Shifted(f, e).braceBegin;
       && WellFormed(Shifted(f, e), s')
       && Verdict(Shifted(f, e), s').None?
       && (Classify(f) in {LambdaOrProc, MethodChain, Expression} ==> b' == 0 || !IsSpace(s'[b' - 1]))
       && (Classify(f) in {Parenthesized, Bare} ==> 0 < b' && s'[b' - 1] == ' ')
  }

  /** Moving the brace does not change the policy. */
  lemma ShiftKeepsPolicy(f: BlockFacts, e: Edit)
    requires e.range.end <= f.braceBegin
    ensures Classify(Shifted(f, e)) == Classify(f)
  {
  }

  /** The message of each remove-space policy. */
  function RemovalMessage(p: Policy): Message {
    match p
    case LambdaOrProc => RemoveSpaceLambda
    case MethodChain => RemoveSpace
    case _ => RemoveSpaceExpression
  }

  /** With a `)` before any space, the three remove-space policies share one check. */
  lemma VerdictOfRemoval(f: BlockFacts, s: string)
    requires WellFormed(f, s)
    requires f.parenEnd.Some? ==> 0 < f.parenEnd.value && s[f.parenEnd.value - 1] == ')'
    requires f.braces && Classify(f) in {LambdaOrProc, MethodChain, Expression}
    ensures Verdict(f, s) == RemoveSpaceCheck(s, f.braceBegin, RemovalMessage(Classify(f)))
  {
    ChainGuardNeverFires(s, f.braceBegin, f.parenEnd);
  }

  /**
   Deleting the whitespace run before the brace keeps the block well formed:
   a `)` cannot be part of the run, so the closing delimiter stays before
   the moved brace.
   */
  lemma RemovalKeepsBlock(f: BlockFacts, s: string, b': nat)
    requires WellFormed(f, s)
    requires f.parenEnd.Some? ==> 0 < f.parenEnd.value && s[f.parenEnd.value - 1] == ')'
    requires b' == RunStart(s, f.braceBegin)
    ensures
      var f', s' := f.(braceBegin := b'), s[..b'] + s[f.braceBegin..];
      && WellFormed(f', s')
      && (f'.parenEnd.Some? ==> 0 < f'.parenEnd.value && s'[f'.parenEnd.value - 1] == ')')
  {
    var s' := s[..b'] + s[f.braceBegin..];
    assert s'[b'] == s[f.braceBegin];
    if f.parenEnd.Some? {
      var pe := f.parenEnd.value;
      assert !IsSpace(s[pe - 1]);
      assert pe <= b';
      assert s'[pe - 1] == s[pe - 1];
    }
  }

  lemma RemovalSettles(f: BlockFacts, s: string)
    requires WellFormed(f, s)
    requires f.parenEnd.Some? ==> 0 < f.parenEnd.value && s[f.parenEnd.value - 1] == ')'
    requires f.braces && Classify(f) in {LambdaOrProc, MethodChain, Expression}
    requires Verdict(f, s).Some?
    ensures FixSettles(f, s)
  {
    var b := f.braceBegin;
    var m := RemovalMessage(Classify(f));
    var e := Verdict(f, s).value.fix.value;
    var b' := RunStart(s, b);
    assert e == Edit(Range(b', b), "") && RemoveSpaceCheck(s, b, m).Some? by {
      VerdictOfRemoval(f, s);
    }
    var f', s' := f.(braceBegin := b'), s[..b'] + s[b..];
    assert Shifted(f, e) == f';
    ApplyDeletes(s, e);
    assert WellFormed(f', s') && (f'.parenEnd.Some? ==> 0 < f'.parenEnd.value && s'[f'.parenEnd.value - 1] == ')') by {
      RemovalKeepsBlock(f, s, b');
    }
    assert (b' == 0 || !IsSpace(s'[b' - 1])) && RemoveSpaceCheck(s', b', m).None? by {
      RemovalLeavesBraceTight(s, b, m);
    }
    assert Classify(f') == Classify(f) by {
      ShiftKeepsPolicy(f, e);
    }
    assert Verdict(f', s').None? by {
      VerdictOfRemoval(f', s');
    }
  }

  lemma ParenthesesSettles(f: BlockFacts, s: string)
    requires WellFormed(f, s)
    requires f.braces && Classify(f) == Parenthesized
    requires Verdict(f, s).Some?
    ensures FixSettles(f, s)
  {
    var b, pe := f.braceBegin, f.parenEnd.value;
    var e := Verdict(f, s).value.fix.value;
    var f', s' := f.(braceBegin := pe + 1), s[..pe] + " " + s[b..];
    assert e.range.end == b && Shifted(f, e) == f' && Apply(s, e) == s'
        && s'[pe + 1] == s[b] && s'[pe] == ' ' && ParenthesesCheck(s', pe + 1, Some(pe)).None? by {
      ParenthesesGapBecomesOneSpace(s, b, pe);
      assert s'[pe..pe + 1] == " ";
    }
    assert Classify(f') == Parenthesized by {
      ShiftKeepsPolicy(f, e);
    }
    assert WellFormed(f', s');
    assert Verdict(f', s').None?;
  }

  lemma BareSettles(f: BlockFacts, s: string)
    requires WellFormed(f, s)
    requires f.braces && Classify(f) == Bare
    requires Verdict(f, s).Some?
    ensures FixSettles(f, s)
  {
    BareInsertsOneSpace(s, f.braceBegin);
    var e := Verdict(f, s).value.fix.value;
    ShiftKeepsPolicy(f, e);
  }

  /**
   Idempotence: when the call's closing delimiter is a `)`, applying the fix
   of any offense and checking the same block again reports nothing.
   */
  lemma FixIsIdempotent(f: BlockFacts, s: string)
    requires WellFormed(f, s)
    requires f.parenEnd.Some? ==> 0 < f.parenEnd.value && s[f.parenEnd.value - 1] == ')'
    requires Verdict(f, s).Some?
    ensures FixSettles(f, s)
  {
    match Classify(f)
    case Parenthesized => ParenthesesSettles(f, s);
    case Bare => BareSettles(f, s);
    case _ => RemovalSettles(f, s);
  }


  // ---------------------------------------------------------------------
  // Scenarios from the rule's tests

  /** `foo{bar}`: a bare call gets one offense, and its fix yields `foo {bar}`. */
  lemma ScenarioBareWithoutSpace()
    ensures
      var s := "foo{bar}";
      var f := BlockFacts(true, false, "foo", None, false, None, 3, None);
      && Verdict(f, s) == Some(Offense(Range(3, 4), AddSpace, Some(Edit(Range(3, 3), " "))))
      && Apply(s, Verdict(f, s).value.fix.value) == "foo {bar}"
  {
    var s := "foo{bar}";
    assert s[2] == 'o';
    assert Apply(s, Edit(Range(3, 3), " ")) == "foo" + " " + "{bar}";
  }

  /** `array.each{|x| x * 2}.reverse`: a chained block without space is accepted. */
  lemma ScenarioChainWithoutSpace()
    ensures
      var s := "array.each{|x| x * 2}.reverse";
      var f := BlockFacts(true, false, "each", Some(Receiver(Send, "", false)), false, None, 10,
                          Some(Parent(Send, false, true)));
      Verdict(f, s).None?
  {
    var s := "array.each{|x| x * 2}.reverse";
    assert s[9] == 'h';
  }

  /**
   `obj.method(1, 2) {|x| x}.other`: the chain beats the parentheses, so the
   space after `)` is reported for removal.
   */
  lemma ScenarioChainBeatsParentheses()
    ensures
      var s := "obj.method(1, 2) {|x| x}.other";
      var f := BlockFacts(true, false, "method", Some(Receiver(Send, "", false)), true, Some(16), 17,
                          Some(Parent(Send, false, true)));
      Verdict(f, s) == Some(Offense(Range(16, 17), RemoveSpace, Some(Edit(Range(16, 17), ""))))
  {
    var s := "obj.method(1, 2) {|x| x}.other";
    var f := BlockFacts(true, false, "method", Some(Receiver(Send, "", false)), true, Some(16), 17,
                        Some(Parent(Send, false, true)));
    assert s[16] == ' ' && s[15] == ')';
    assert RunStart(s, 17) == 16;
    assert Classify(f) == MethodChain;
  }

  /** `foo(1, 2, 3){bar}`: a standalone parenthesised call with an empty gap gets a space inserted. */
  lemma ScenarioParenthesesWithoutSpace()
    ensures
      var s := "foo(1, 2, 3){bar}";
      var f := BlockFacts(true, false, "foo", None, true, Some(12), 12, None);
      && Verdict(f, s) == Some(Offense(Range(12, 13), AddSpace, Some(Edit(Range(12, 12), " "))))
      && Apply(s, Verdict(f, s).value.fix.value) == "foo(1, 2, 3) {bar}"
  {
    var s := "foo(1, 2, 3){bar}";
    assert s[12..12] == "";
    assert Apply(s, Edit(Range(12, 12), " ")) == "foo(1, 2, 3)" + " " + "{bar}";
  }

  /** `foo {bar{baz}}`: the inner block's parent is a brace block, so it is an expression and takes no space. */
  lemma ScenarioNestedBlocks()
    ensures
      var s := "foo {bar{baz}}";
      var outer := BlockFacts(true, false, "foo", None, false, None, 4, None);
      var inner := BlockFacts(true, false, "bar", None, false, None, 8, Some(Parent(Block, true, false)));
      Verdict(outer, s).None? && Verdict(inner, s).None?
  {
    var s := "foo {bar{baz}}";
    assert s[3] == ' ' && s[7] == 'r';
  }

  /** `->(foo) {foo}`: a stabby lambda with a space is reported, whatever its parentheses. */
  lemma ScenarioLambdaWithSpace()
    ensures
      var s := "->(foo) {foo}";
      var f := BlockFacts(true, true, "lambda", None, false, None, 8, None);
      Verdict(f, s) == Some(Offense(Range(7, 8), RemoveSpaceLambda, Some(Edit(Range(7, 8), ""))))
  {
    var s := "->(foo) {foo}";
    assert s[7] == ' ' && s[6] == ')';
    assert RunStart(s, 8) == 7;
  }
}
