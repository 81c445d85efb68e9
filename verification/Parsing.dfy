/** The parser object of `src/expr.rs`, which moves a position along the tokens. */
module Parsing {
  import opened Common
  import opened Text
  import opened Values
  import opened Tokenizer
  import opened Evaluator

  class Parser {
    const tokens: seq<Token>
    const ctx: Context
    var pos: nat

    constructor (ctx: Context, tokens: seq<Token>)
      ensures this.tokens == tokens && this.ctx == ctx && pos == 0
    {
      this.tokens := tokens;
      this.ctx := ctx;
      pos := 0;
    }

    ghost predicate Valid()
      reads this
    {
      pos <= |tokens|
    }

    /** What is still to read. */
    ghost function Ahead(): seq<Token>
      requires Valid()
      reads this
    {
      tokens[pos..]
    }

    /** The outcome and the new position are the ones the grammar gives. */
    ghost predicate Agrees(r: Result<Value, ExprError>, p: Parsed)
      reads this
    {
      Valid() &&
      match p
      case Fail(e) => r == Err(e)
      case Done(v, rest) => r == Ok(v) && Ahead() == rest
    }

    function Peek(t: Token): (r: bool)
      requires Valid()
      reads this
      ensures r == Next(Ahead(), t)
    {
      pos < |tokens| && tokens[pos] == t
    }

    method Eat(t: Token) returns (ate: bool)
      requires Valid()
      modifies this`pos
      ensures Valid() && ate == Next(old(Ahead()), t)
      ensures Ahead() == if ate then old(Ahead())[1..] else old(Ahead())
    {
      ate := Peek(t);
      if ate {
        pos := pos + 1;
      }
    }

    method Or() returns (r: Result<Value, ExprError>)
      requires Valid()
      modifies this`pos
      ensures Agrees(r, ParseOr(ctx, old(Ahead())))
      decreases |tokens| - pos, 5
    {
      r := this.And();
      if r.Err? { return; }
      var left := r.value;
      var more := Eat(Token.Or);
      while more
        invariant Valid() && pos > old(pos)
        invariant !more ==> !Peek(Token.Or)
        invariant ParseOr(ctx, old(Ahead())) ==
                  if more then
                    match ParseAnd(ctx, Ahead())
                    case Fail(e) => Fail(e)
                    case Done(right, rest) => OrRest(ctx, OrElse(left, right), rest)
                  else Done(left, Ahead())
        decreases |tokens| - pos, more
      {
        r := this.And();
        if r.Err? { return; }
        left := OrElse(left, r.value);
        more := Eat(Token.Or);
      }
      r := Ok(left);
    }

    method And() returns (r: Result<Value, ExprError>)
      requires Valid()
      modifies this`pos
      ensures Agrees(r, ParseAnd(ctx, old(Ahead())))
      decreases |tokens| - pos, 4
    {
      r := this.Not();
      if r.Err? { return; }
      var left := r.value;
      var more := Eat(Token.And);
      while more
        invariant Valid() && pos > old(pos)
        invariant !more ==> !Peek(Token.And)
        invariant ParseAnd(ctx, old(Ahead())) ==
                  if more then
                    match ParseNot(ctx, Ahead())
                    case Fail(e) => Fail(e)
                    case Done(right, rest) => AndRest(ctx, AndThen(left, right), rest)
                  else Done(left, Ahead())
        decreases |tokens| - pos, more
      {
        r := this.Not();
        if r.Err? { return; }
        left := AndThen(left, r.value);
        more := Eat(Token.And);
      }
      r := Ok(left);
    }

    method Not() returns (r: Result<Value, ExprError>)
      requires Valid()
      modifies this`pos
      ensures Agrees(r, ParseNot(ctx, old(Ahead())))
      decreases |tokens| - pos, 3
    {
      var negated := Eat(Token.Not);
      if negated {
        r := this.Not();
        if r.Ok? {
          r := Ok(Bool(!Truthy(r.value)));
        }
      } else {
        r := this.Comparison();
      }
    }

    method Comparison() returns (r: Result<Value, ExprError>)
      requires Valid()
      modifies this`pos
      ensures Agrees(r, ParseComparison(ctx, old(Ahead())))
      decreases |tokens| - pos, 2
    {
      var left := this.Primary();
      if left.Err? || pos == |tokens| || !IsComparison(tokens[pos]) {
        return left;
      }
      var op := tokens[pos];
      pos := pos + 1;
      var right := this.Primary();
      if right.Err? {
        return right;
      }
      r := Ok(Bool(Compare(ctx.lib, op, left.value, right.value)));
    }

    method Primary() returns (r: Result<Value, ExprError>)
      requires Valid()
      modifies this`pos
      ensures Agrees(r, ParsePrimary(ctx, old(Ahead())))
      decreases |tokens| - pos, 1
    {
      var base := this.Atom();
      if base.Err? {
        return base;
      }
      var segments: seq<string> := [];
      while Peek(Dot)
        invariant Valid()
        invariant ParsePrimary(ctx, old(Ahead())) == PathRest(ctx, base.value, segments, Ahead())
        decreases |tokens| - pos
      {
        ghost var here := Ahead();
        pos := pos + 1;
        if pos < |tokens| && (tokens[pos].Ident? || tokens[pos].Numeral?) {
          segments := segments + [SegmentOf(ctx.lib, tokens[pos])];
          pos := pos + 1;
          assert here[2..] == Ahead();
        } else {
          return Err(TrailingDot(Join(segments, ".")));
        }
      }
      var v := WalkAlong(base.value, segments);
      r := Ok(v);
    }

    method Atom() returns (r: Result<Value, ExprError>)
      requires Valid()
      modifies this`pos
      ensures Agrees(r, ParseAtom(ctx, old(Ahead())))
      decreases |tokens| - pos, 0
    {
      if pos == |tokens| {
        return Err(Unexpected(None));
      }
      var t := tokens[pos];
      if t.LParen? {
        pos := pos + 1;
        r := this.Or();
        if r.Ok? {
          var closed := Eat(RParen);
          if !closed {
            r := Err(UnclosedParen);
          }
        }
      } else if t.Quoted? {
        pos := pos + 1;
        r := Ok(Str(t.text));
      } else if t.Numeral? {
        pos := pos + 1;
        r := Ok(Num(FromReal(t.value)));
      } else if t.Ident? {
        pos := pos + 1;
        var call := Eat(LParen);
        if call {
          r := this.CallRest(t.name);
        } else {
          r := Ok(NameValue(ctx, t.name));
        }
      } else {
        r := Err(Unexpected(Some(t)));
      }
    }

    /** The arguments of a call, from behind the opening parenthesis. */
    method CallRest(name: string) returns (r: Result<Value, ExprError>)
      requires Valid()
      modifies this`pos
      ensures Agrees(r, ParseCall(ctx, name, old(Ahead())))
      decreases |tokens| - pos, 6
    {
      var args: seq<Value> := [];
      var closed := Eat(RParen);
      ghost var start := Ahead();
      while !closed
        invariant Valid() && pos >= old(pos)
        invariant old(Ahead()) == start || Next(old(Ahead()), RParen)
        invariant closed && Next(old(Ahead()), RParen) ==> args == [] && Ahead() == old(Ahead())[1..]
        invariant !closed ==> !Next(old(Ahead()), RParen)
        invariant !Next(old(Ahead()), RParen) ==>
                  ParseArguments(ctx, [], start) ==
                  if closed then DoneList(args, Ahead()) else ParseArguments(ctx, args, Ahead())
        decreases |tokens| - pos, !closed
      {
        r := this.Or();
        if r.Err? { return; }
        args := args + [r.value];
        var comma := Eat(Comma);
        if comma { continue; }
        closed := Eat(RParen);
        if !closed {
          return Err(UnclosedParen);
        }
      }
      r := Call(ctx, name, args);
    }
  }

  method WalkAlong(v: Value, segments: seq<string>) returns (cur: Value)
    ensures cur == Walk(v, segments)
  {
    cur := v;
    for i := 0 to |segments|
      invariant Walk(cur, segments[i..]) == Walk(v, segments)
    {
      cur := Property(cur, segments[i]);
      assert segments[i..][1..] == segments[i + 1..];
    }
  }

  method Evaluate(ctx: Context, text: string) returns (r: Result<Value, ExprError>)
    ensures r == Eval(ctx, text)
  {
    var tokens := Tokenize(text);
    if tokens.Err? {
      return Err(tokens.error);
    }
    var p := new Parser(ctx, tokens.value);
    assert p.Ahead() == tokens.value;
    r := p.Or();
    if r.Ok? && p.pos != |p.tokens| {
      r := Err(Trailing(p.tokens[p.pos]));
    }
  }
}
