/**
  Scoped configuration (src/safeatomic/_config.py): four context variables
  that `safeatomic_config` sets on entry and resets, by tokens and in reverse
  order, on exit.  Running any nesting of blocks on the variables gives what a
  stack of overrides gives, which is put back however a block is left.
 */
module Config {
  import opened Basics

  const DEFAULT_ENCODING := "utf-8"
  const DEFAULT_ALGO := "sha256"
  const DEFAULT_RETRIES: int := 0
  const DEFAULT_DELAY: real := 0.1

  /** One value per key, None where it is unset: explicit arguments, a block's keywords, or the variables themselves. */
  datatype Overrides = Overrides(encoding: Option<string>, algo: Option<string>, retries: Option<int>,
      delay: Option<real>)

  datatype Effective = Effective(encoding: string, algo: string, retries: int, delay: real)

  /** What a program does between and inside the blocks; a library call resolves its four options. */
  datatype Stmt =
    | Call(explicit: Overrides)
    | Block(overrides: Overrides, body: Program)
    | Try(guarded: Program)
    | Raise

  datatype Program = End | Then(head: Stmt, tail: Program)

  datatype Outcome = Outcome(seen: seq<Effective>, raised: bool)

  // ----- the specification: a stack of overrides ------------------------------------------

  /** The value nearest the end. */
  function Innermost<T>(values: seq<Option<T>>): Option<T>
  {
    if values == [] then None
    else if values[|values| - 1].Some? then values[|values| - 1]
    else Innermost(values[..|values| - 1])
  }

  function Pick<T>(explicit: Option<T>, scoped: seq<Option<T>>, default: T): T
  {
    if explicit.Some? then explicit.value
    else
      match Innermost(scoped)
      case Some(v) => v
      case None => default
  }

  function Column<T>(stack: seq<Overrides>, key: Overrides -> Option<T>): (r: seq<Option<T>>)
    ensures |r| == |stack| && forall i | 0 <= i < |stack| :: r[i] == key(stack[i])
  {
    seq(|stack|, i requires 0 <= i < |stack| => key(stack[i]))
  }

  function EncodingOf(o: Overrides): Option<string> { o.encoding }
  function AlgoOf(o: Overrides): Option<string> { o.algo }
  function RetriesOf(o: Overrides): Option<int> { o.retries }
  function DelayOf(o: Overrides): Option<real> { o.delay }

  function Resolved(explicit: Overrides, stack: seq<Overrides>): Effective
  {
    Effective(Pick(explicit.encoding, Column(stack, EncodingOf), DEFAULT_ENCODING),
              Pick(explicit.algo, Column(stack, AlgoOf), DEFAULT_ALGO),
              Pick(explicit.retries, Column(stack, RetriesOf), DEFAULT_RETRIES),
              Pick(explicit.delay, Column(stack, DelayOf), DEFAULT_DELAY))
  }

  /** The program under the blocks in `stack`, innermost last. */
  function Meaning(program: Program, stack: seq<Overrides>): Outcome
    decreases program
  {
    match program
    case End => Outcome([], false)
    case Then(head, tail) =>
      var first := StmtMeaning(head, stack);
      if first.raised then first
      else
        var rest := Meaning(tail, stack);
        Outcome(first.seen + rest.seen, rest.raised)
  }

  function StmtMeaning(stmt: Stmt, stack: seq<Overrides>): Outcome
    decreases stmt
  {
    match stmt
    case Call(explicit) => Outcome([Resolved(explicit, stack)], false)
    case Block(overrides, body) => Meaning(body, stack + [overrides])
    case Try(guarded) => Outcome(Meaning(guarded, stack).seen, false)
    case Raise => Outcome([], true)
  }

  /** The value set by the innermost enclosing block that set one at all. */
  lemma {:induction false} InnermostExactly<T>(values: seq<Option<T>>, v: T)
    ensures Innermost(values) == Some(v) <==>
      exists i :: 0 <= i < |values| && values[i] == Some(v) && forall j | i < j < |values| :: values[j] == None
    decreases |values|
  {
    if values != [] && values[|values| - 1] == None {
      var rest := values[..|values| - 1];
      InnermostExactly(rest, v);
      assert forall i | 0 <= i < |rest| :: values[i] == rest[i];
      if i :| 0 <= i < |values| && values[i] == Some(v) && forall j | i < j < |values| :: values[j] == None {
        assert rest[i] == Some(v);
      }
      if i :| 0 <= i < |rest| && rest[i] == Some(v) && forall j | i < j < |rest| :: rest[j] == None {
        assert values[i] == Some(v);
      }
    } else if values != [] {
      assert values[|values| - 1] == Innermost(values);
    }
  }

  /** Explicit value, else what the innermost enclosing block that set one set, else the default. */
  predicate Chosen<T(==)>(explicit: Option<T>, scoped: seq<Option<T>>, default: T, v: T)
  {
    || explicit == Some(v)
    || (explicit.None? && exists i :: 0 <= i < |scoped| && scoped[i] == Some(v)
                            && forall j | i < j < |scoped| :: scoped[j] == None)
    || (explicit.None? && v == default && forall i | 0 <= i < |scoped| :: scoped[i] == None)
  }

  /** Picking finds that value, and there is only one. */
  lemma PickExactly<T>(explicit: Option<T>, scoped: seq<Option<T>>, default: T, v: T)
    ensures Pick(explicit, scoped, default) == v <==> Chosen(explicit, scoped, default, v)
  {
    InnermostExactly(scoped, v);
    NoneExactly(scoped);
    match Innermost(scoped)
    case Some(u) => InnermostExactly(scoped, u);
    case None =>
  }

  /** All four options of a call with arguments `explicit` inside the blocks in `stack`. */
  predicate ChosenUnder(explicit: Overrides, stack: seq<Overrides>, r: Effective)
  {
    && Chosen(explicit.encoding, Column(stack, (o: Overrides) => o.encoding), "utf-8", r.encoding)
    && Chosen(explicit.algo, Column(stack, (o: Overrides) => o.algo), "sha256", r.algo)
    && Chosen(explicit.retries, Column(stack, (o: Overrides) => o.retries), 0, r.retries)
    && Chosen(explicit.delay, Column(stack, (o: Overrides) => o.delay), 0.1, r.delay)
  }

  lemma ResolvedExactly(explicit: Overrides, stack: seq<Overrides>, r: Effective)
    ensures Resolved(explicit, stack) == r <==> ChosenUnder(explicit, stack, r)
  {
    hide Pick, Chosen;
    assert Column(stack, (o: Overrides) => o.encoding) == Column(stack, EncodingOf);
    assert Column(stack, (o: Overrides) => o.algo) == Column(stack, AlgoOf);
    assert Column(stack, (o: Overrides) => o.retries) == Column(stack, RetriesOf);
    assert Column(stack, (o: Overrides) => o.delay) == Column(stack, DelayOf);
    PickExactly(explicit.encoding, Column(stack, EncodingOf), DEFAULT_ENCODING, r.encoding);
    PickExactly(explicit.algo, Column(stack, AlgoOf), DEFAULT_ALGO, r.algo);
    PickExactly(explicit.retries, Column(stack, RetriesOf), DEFAULT_RETRIES, r.retries);
    PickExactly(explicit.delay, Column(stack, DelayOf), DEFAULT_DELAY, r.delay);
  }

  /** A program inside one block after the other, outermost first. */
  function Nested(blocks: seq<Overrides>, body: Program): Program
  {
    if blocks == [] then body else Then(Block(blocks[0], Nested(blocks[1..], body)), End)
  }

  /** The body of nested blocks runs under all of them. */
  lemma {:induction false} BlocksNest(blocks: seq<Overrides>, body: Program, stack: seq<Overrides>)
    ensures Meaning(Nested(blocks, body), stack) == Meaning(body, stack + blocks)
    decreases |blocks|
  {
    if blocks == [] {
      assert stack + blocks == stack;
    } else {
      BlocksNest(blocks[1..], body, stack + [blocks[0]]);
      assert stack + [blocks[0]] + blocks[1..] == stack + blocks;
      var inner := Meaning(body, stack + blocks);
      assert inner.seen + [] == inner.seen;
      assert Meaning(End, stack) == Outcome([], false);
    }
  }

  /** An exception leaves the blocks: calls inside saw them, a call after it is caught does not. */
  lemma NestedCall(blocks: seq<Overrides>, inside: Overrides, skipped: Overrides, after: Overrides)
    returns (first: Effective, second: Effective)
    ensures var body := Then(Call(inside), Then(Raise, Then(Call(skipped), End)));
      Meaning(Then(Try(Nested(blocks, body)), Then(Call(after), End)), []) == Outcome([first, second], false)
    ensures ChosenUnder(inside, blocks, first) && ChosenUnder(after, [], second)
  {
    hide Resolved, ChosenUnder;
    first, second := Resolved(inside, blocks), Resolved(after, []);
    ResolvedExactly(inside, blocks, first);
    ResolvedExactly(after, [], second);
    var rest := Then(Raise, Then(Call(skipped), End));
    BlocksNest(blocks, Then(Call(inside), rest), []);
    assert [] + blocks == blocks;
    assert Meaning(rest, blocks) == Outcome([], true);
    assert Meaning(Then(Call(inside), rest), blocks) == Outcome([first], true) by {
      assert [first] + [] == [first];
    }
    assert Meaning(Then(Call(after), End), []) == Outcome([second], false) by { assert [second] + [] == [second]; }
  }

  lemma {:induction false} NoneExactly<T>(values: seq<Option<T>>)
    ensures Innermost(values) == None <==> forall i | 0 <= i < |values| :: values[i] == None
    decreases |values|
  {
    if values != [] {
      NoneExactly(values[..|values| - 1]);
      assert forall i | 0 <= i < |values| - 1 :: values[..|values| - 1][i] == values[i];
    }
  }

  /** The column of a key under one more block. */
  lemma OneMoreBlock<T>(stack: seq<Overrides>, o: Overrides, key: Overrides -> Option<T>)
    ensures Innermost(Column(stack + [o], key)) == if key(o).Some? then key(o) else Innermost(Column(stack, key))
  {
    var column := Column(stack + [o], key);
    assert column[..|stack|] == Column(stack, key);
  }

  // ----- the implementation: context variables and tokens --------------------------------------

  /** What `ContextVar.set` returns: which variable it was, and what it held. */
  datatype Token =
    | EncodingToken(text: Option<string>)
    | AlgoToken(text: Option<string>)
    | RetriesToken(number: Option<int>)
    | DelayToken(seconds: Option<real>)

  /** The variables when all enclosing blocks have been entered. */
  function Flatten(stack: seq<Overrides>): Overrides
  {
    Overrides(Innermost(Column(stack, EncodingOf)), Innermost(Column(stack, AlgoOf)),
              Innermost(Column(stack, RetriesOf)), Innermost(Column(stack, DelayOf)))
  }

  function Put(vars: Overrides, token: Token): Overrides
  {
    match token
    case EncodingToken(v) => vars.(encoding := v)
    case AlgoToken(v) => vars.(algo := v)
    case RetriesToken(v) => vars.(retries := v)
    case DelayToken(v) => vars.(delay := v)
  }

  /** The tokens undone from the last to the first. */
  function Unwound(vars: Overrides, resets: seq<Token>): Overrides
    decreases |resets|
  {
    if resets == [] then vars else Unwound(Put(vars, resets[|resets| - 1]), resets[..|resets| - 1])
  }

  lemma OneMoreToken(vars: Overrides, resets: seq<Token>, token: Token)
    ensures Unwound(vars, resets + [token]) == Unwound(Put(vars, token), resets)
  {
    assert (resets + [token])[..|resets|] == resets;
  }

  function Over(o: Overrides, vars: Overrides): Overrides
  {
    Overrides(if o.encoding.Some? then o.encoding else vars.encoding, if o.algo.Some? then o.algo else vars.algo,
              if o.retries.Some? then o.retries else vars.retries, if o.delay.Some? then o.delay else vars.delay)
  }

  lemma FlattenOver(stack: seq<Overrides>, o: Overrides)
    ensures Flatten(stack + [o]) == Over(o, Flatten(stack))
  {
    OneMoreBlock(stack, o, EncodingOf);
    OneMoreBlock(stack, o, AlgoOf);
    OneMoreBlock(stack, o, RetriesOf);
    OneMoreBlock(stack, o, DelayOf);
  }

  class Context {
    var encoding: Option<string>
    var algo: Option<string>
    var retries: Option<int>
    var delay: Option<real>

    constructor ()
      ensures Vars() == Flatten([])
    {
      encoding, algo, retries, delay := None, None, None, None;
    }

    function Vars(): Overrides
      reads this
    {
      Overrides(encoding, algo, retries, delay)
    }

    /** `resolve_config`: explicit argument, else context variable, else default. */
    method ResolveConfig(explicit: Overrides, ghost stack: seq<Overrides>) returns (r: Effective)
      requires Vars() == Flatten(stack)
      ensures ChosenUnder(explicit, stack, r)
    {
      var enc := if explicit.encoding.Some? then explicit.encoding else encoding;
      var alg := if explicit.algo.Some? then explicit.algo else algo;
      var rtr := if explicit.retries.Some? then explicit.retries else retries;
      var dly := if explicit.delay.Some? then explicit.delay else delay;
      r := Effective(if enc.Some? then enc.value else DEFAULT_ENCODING, if alg.Some? then alg.value else DEFAULT_ALGO,
                     if rtr.Some? then rtr.value else DEFAULT_RETRIES, if dly.Some? then dly.value else DEFAULT_DELAY);
      ResolvedExactly(explicit, stack, r);
    }

    /** Entering a block: each keyword given sets its variable and leaves a token. */
    method SetAll(o: Overrides) returns (resets: seq<Token>)
      modifies this
      ensures Vars() == Over(o, old(Vars()))
      ensures Unwound(Vars(), resets) == old(Vars())
    {
      resets := [];
      if o.encoding.Some? {
        OneMoreToken(Vars().(encoding := o.encoding), resets, EncodingToken(encoding));
        resets := resets + [EncodingToken(encoding)];
        encoding := o.encoding;
      }
      if o.algo.Some? {
        OneMoreToken(Vars().(algo := o.algo), resets, AlgoToken(algo));
        resets := resets + [AlgoToken(algo)];
        algo := o.algo;
      }
      if o.retries.Some? {
        OneMoreToken(Vars().(retries := o.retries), resets, RetriesToken(retries));
        resets := resets + [RetriesToken(retries)];
        retries := o.retries;
      }
      if o.delay.Some? {
        OneMoreToken(Vars().(delay := o.delay), resets, DelayToken(delay));
        resets := resets + [DelayToken(delay)];
        delay := o.delay;
      }
    }

    /** Leaving it: the tokens in reverse order. */
    method ResetAll(resets: seq<Token>)
      modifies this
      ensures Vars() == Unwound(old(Vars()), resets)
    {
      var n := |resets|;
      assert resets[..n] == resets;
      while n > 0
        invariant 0 <= n <= |resets|
        invariant Unwound(Vars(), resets[..n]) == Unwound(old(Vars()), resets)
      {
        assert resets[..n][..n - 1] == resets[..n - 1];
        n := n - 1;
        match resets[n] {
          case EncodingToken(v) => encoding := v;
          case AlgoToken(v) => algo := v;
          case RetriesToken(v) => retries := v;
          case DelayToken(v) => delay := v;
        }
      }
    }

    /** Any program of nested blocks, calls and exceptions, on the variables. */
    method Run(program: Program, ghost stack: seq<Overrides>) returns (r: Outcome)
      requires Vars() == Flatten(stack)
      modifies this
      ensures r == Meaning(program, stack) && Vars() == old(Vars())
      decreases program
    {
      match program {
        case End =>
          r := Outcome([], false);
        case Then(head, tail) =>
          var first := RunStmt(head, stack);
          if first.raised {
            return first;
          }
          var rest := Run(tail, stack);
          r := Outcome(first.seen + rest.seen, rest.raised);
      }
    }

    method RunStmt(stmt: Stmt, ghost stack: seq<Overrides>) returns (r: Outcome)
      requires Vars() == Flatten(stack)
      modifies this
      ensures r == StmtMeaning(stmt, stack) && Vars() == old(Vars())
      decreases stmt
    {
      match stmt {
        case Call(explicit) =>
          var e := ResolveConfig(explicit, stack);
          ResolvedExactly(explicit, stack, e);
          r := Outcome([e], false);
        case Block(overrides, body) =>
          FlattenOver(stack, overrides);
          var resets := SetAll(overrides);
          r := Run(body, stack + [overrides]);
          // finally: also when the body raised
          ResetAll(resets);
        case Try(guarded) =>
          var inner := Run(guarded, stack);
          r := Outcome(inner.seen, false);
        case Raise =>
          r := Outcome([], true);
      }
    }
  }
}
