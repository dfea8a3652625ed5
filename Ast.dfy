/** The part of the query builder's AST pass that the pagination code uses:
    an append-only buffer of SQL text pieces and bound parameters. */
module Ast {
  import opened Wrappers
  import opened Casts

  /** The two SQL dialects the pagination code implements a walk for. */
  datatype Backend = Pg | Mysql

  /** One thing pushed into a pass: literal SQL text, or a bound `BigInt`
      parameter carrying an i64. */
  datatype Tok = Sql(text: string) | Bind(value: I64)

  /** What a query's own walk does to the pass it is handed: the tokens it
      appends, then whether it succeeds. It may fail after appending some. */
  datatype Fragment = Fragment(emitted: seq<Tok>, outcome: Outcome)

  /** The bound values among `toks`, in order. */
  function Binds(toks: seq<Tok>): seq<I64>
  {
    if toks == [] then []
    else (if toks[0].Bind? then [toks[0].value] else []) + Binds(toks[1..])
  }

  /** The binds of a single token. */
  lemma BindsOfOne(t: Tok)
    ensures Binds([t]) == if t.Bind? then [t.value] else []
  {
  }

  /** Collecting binds distributes over concatenation. */
  lemma {:induction false} BindsConcat(a: seq<Tok>, b: seq<Tok>)
    ensures Binds(a + b) == Binds(a) + Binds(b)
  {
    if a == [] {
      assert a + b == b;
    } else {
      assert (a + b)[1..] == a[1..] + b;
      BindsConcat(a[1..], b);
    }
  }

  /** Every bind among `toks` is one that `rejects` lets through. */
  predicate AcceptedBy(toks: seq<Tok>, rejects: I64 -> Option<Error>)
  {
    forall i :: 0 <= i < |toks| && toks[i].Bind? ==> rejects(toks[i].value).None?
  }

  /** `AstPass`: the pass a query walk writes into. `rejects(v)` is the error
      the pass's bind collector reports when it serialises the value `v`, if
      it reports one. Every walk pushing into the pass shares it. */
  class AstPass {
    const backend: Backend
    const rejects: I64 -> Option<Error>
    var tokens: seq<Tok>

    /** The pass holds only binds it accepted. */
    ghost predicate Valid()
      reads this
    {
      AcceptedBy(tokens, rejects)
    }

    constructor (backend: Backend, rejects: I64 -> Option<Error>)
      ensures Valid()
      ensures this.backend == backend && this.rejects == rejects
      ensures tokens == []
    {
      this.backend := backend;
      this.rejects := rejects;
      tokens := [];
    }

    /** `push_sql`: appends a piece of SQL text. */
    method PushSql(s: string)
      requires Valid()
      modifies this
      ensures Valid()
      ensures tokens == old(tokens) + [Sql(s)]
    {
      tokens := tokens + [Sql(s)];
    }

    /** `push_bind_param::<BigInt, _>`: appends a bound value, unless the
        pass rejects that value, in which case nothing is appended and its
        error is returned. */
    method PushBindParam(v: I64) returns (r: Outcome)
      requires Valid()
      modifies this
      ensures Valid()
      ensures rejects(v).None? ==> r == Pass && tokens == old(tokens) + [Bind(v)]
      ensures rejects(v).Some? ==> r == Fail(rejects(v).value) && tokens == old(tokens)
    {
      var e := rejects(v);
      if e.Some? {
        r := Fail(e.value);
      } else {
        tokens := tokens + [Bind(v)];
        r := Pass;
      }
    }

    /** A nested query walking into this pass (`walk_ast(out.reborrow())`):
        its tokens, whose binds went through this same pass, are appended as
        they are, and its outcome returned. */
    method Walk(f: Fragment) returns (r: Outcome)
      requires Valid()
      requires AcceptedBy(f.emitted, rejects)
      modifies this
      ensures Valid()
      ensures tokens == old(tokens) + f.emitted
      ensures r == f.outcome
    {
      tokens := tokens + f.emitted;
      r := f.outcome;
    }
  }
}
