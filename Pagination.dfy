/** The pagination decorator: `paginate` wraps a query with an offset and a
    limit; walking the wrapped query embeds the inner query's SQL in a
    windowed count with LIMIT and OFFSET binds (identically for Postgres and
    MySQL); `load_and_total` splits the loaded `(record, count)` rows into
    the records and the total count. */
module Pagination {
  import opened Wrappers
  import opened Casts
  import opened Ast

  /** `PaginatedQuery`: the wrapped query with the page's offset and limit. */
  datatype PaginatedQuery<T> = PaginatedQuery(query: T, offset: Usize, limit: Usize)

  /** `paginate(self, offset, limit)`. */
  function Paginate<T>(query: T, offset: Usize, limit: Usize): (p: PaginatedQuery<T>)
    ensures p.query == query
    ensures p.offset == offset && p.limit == limit
  {
    PaginatedQuery(query, offset, limit)
  }

  // ---------------------------------------------------------------------
  // SQL emission (`walk_ast`)
  // ---------------------------------------------------------------------

  const OPEN: string := "SELECT *, COUNT(*) OVER () FROM ("
  const CLOSE_LIMIT: string := ") t LIMIT "
  const OFFSET: string := " OFFSET "

  /** The tokens a walk of the wrapped query appends to the pass, given what
      the inner query's walk does and which values the pass rejects. */
  function Emitted(inner: Fragment, rejects: I64 -> Option<Error>, limit: Usize, offset: Usize): seq<Tok>
  {
    [Sql(OPEN)] + inner.emitted +
    (if inner.outcome.Fail? then [] else [Sql(CLOSE_LIMIT)] + Binding(rejects, limit, offset))
  }

  /** What follows the closing text: the limit bind and the offset text if
      the limit is accepted, then the offset bind if that is accepted too. */
  function Binding(rejects: I64 -> Option<Error>, limit: Usize, offset: Usize): seq<Tok>
  {
    if rejects(AsI64(limit)).Some? then []
    else [Bind(AsI64(limit)), Sql(OFFSET)]
         + (if rejects(AsI64(offset)).Some? then [] else [Bind(AsI64(offset))])
  }

  /** The result a walk of the wrapped query returns: the first error met. */
  function WalkResult(inner: Fragment, rejects: I64 -> Option<Error>, limit: Usize, offset: Usize): Outcome
  {
    if inner.outcome.Fail? then inner.outcome
    else if rejects(AsI64(limit)).Some? then Fail(rejects(AsI64(limit)).value)
    else if rejects(AsI64(offset)).Some? then Fail(rejects(AsI64(offset)).value)
    else Pass
  }

  /** A bind collector that accepts every value. */
  function AcceptAll(v: I64): Option<Error>
  {
    None
  }

  /** `QueryFragment<Pg>::walk_ast`. The inner walk writes into the same
      pass, so its binds are ones the pass accepts. */
  method WalkAstPg<T>(q: PaginatedQuery<T>, walkQuery: T -> Fragment, out: AstPass) returns (r: Outcome)
    requires out.backend == Pg
    requires out.Valid()
    requires AcceptedBy(walkQuery(q.query).emitted, out.rejects)
    modifies out
    ensures out.Valid()
    ensures out.tokens == old(out.tokens) + Emitted(walkQuery(q.query), out.rejects, q.limit, q.offset)
    ensures r == WalkResult(walkQuery(q.query), out.rejects, q.limit, q.offset)
  {
    var inner := walkQuery(q.query);
    ghost var start := out.tokens;
    out.PushSql(OPEN);
    :- out.Walk(inner);
    assert out.tokens == start + ([Sql(OPEN)] + inner.emitted);
    out.PushSql(CLOSE_LIMIT);
    :- out.PushBindParam(AsI64(q.limit));
    out.PushSql(OFFSET);
    assert out.tokens == start + ([Sql(OPEN)] + inner.emitted + [Sql(CLOSE_LIMIT), Bind(AsI64(q.limit)), Sql(OFFSET)]);
    :- out.PushBindParam(AsI64(q.offset));
    r := Pass;
  }

  /** `QueryFragment<Mysql>::walk_ast`: proved against the same Emitted and
      WalkResult as the Postgres walk, so both dialects emit the same tokens
      and return the same result. */
  method WalkAstMysql<T>(q: PaginatedQuery<T>, walkQuery: T -> Fragment, out: AstPass) returns (r: Outcome)
    requires out.backend == Mysql
    requires out.Valid()
    requires AcceptedBy(walkQuery(q.query).emitted, out.rejects)
    modifies out
    ensures out.Valid()
    ensures out.tokens == old(out.tokens) + Emitted(walkQuery(q.query), out.rejects, q.limit, q.offset)
    ensures r == WalkResult(walkQuery(q.query), out.rejects, q.limit, q.offset)
  {
    var inner := walkQuery(q.query);
    ghost var start := out.tokens;
    out.PushSql(OPEN);
    :- out.Walk(inner);
    assert out.tokens == start + ([Sql(OPEN)] + inner.emitted);
    out.PushSql(CLOSE_LIMIT);
    :- out.PushBindParam(AsI64(q.limit));
    out.PushSql(OFFSET);
    assert out.tokens == start + ([Sql(OPEN)] + inner.emitted + [Sql(CLOSE_LIMIT), Bind(AsI64(q.limit)), Sql(OFFSET)]);
    :- out.PushBindParam(AsI64(q.offset));
    r := Pass;
  }

  /** The walk succeeds exactly when the inner walk succeeds and both binds
      are accepted. */
  lemma WalkSucceedsIff(inner: Fragment, rejects: I64 -> Option<Error>, limit: Usize, offset: Usize)
    ensures WalkResult(inner, rejects, limit, offset) == Pass
        <==> inner.outcome == Pass && rejects(AsI64(limit)) == None && rejects(AsI64(offset)) == None
  {
  }

  /** A successful walk appends exactly: the opening text, the inner tokens,
      the closing text, the limit bind, the offset text, the offset bind. */
  lemma SuccessfulWalkEmits(inner: Fragment, rejects: I64 -> Option<Error>, limit: Usize, offset: Usize)
    requires WalkResult(inner, rejects, limit, offset) == Pass
    ensures Emitted(inner, rejects, limit, offset)
         == [Sql(OPEN)] + inner.emitted
            + [Sql(CLOSE_LIMIT), Bind(AsI64(limit)), Sql(OFFSET), Bind(AsI64(offset))]
  {
  }

  /** The inner query's tokens come right after the opening text,
      unchanged and contiguous, and on success the closing text follows. */
  lemma InnerEmbeddedUnchanged(inner: Fragment, rejects: I64 -> Option<Error>, limit: Usize, offset: Usize)
    ensures var toks := Emitted(inner, rejects, limit, offset);
      && |toks| >= 1 + |inner.emitted|
      && toks[0] == Sql(OPEN)
      && toks[1..1 + |inner.emitted|] == inner.emitted
      && (inner.outcome == Pass ==> |toks| > 1 + |inner.emitted| && toks[1 + |inner.emitted|] == Sql(CLOSE_LIMIT))
  {
  }

  /** A failing inner walk stops emission right after its own tokens, and
      its error is the walk's result. */
  lemma InnerFailureStops(inner: Fragment, rejects: I64 -> Option<Error>, limit: Usize, offset: Usize)
    requires inner.outcome.Fail?
    ensures Emitted(inner, rejects, limit, offset) == [Sql(OPEN)] + inner.emitted
    ensures WalkResult(inner, rejects, limit, offset) == inner.outcome
  {
  }

  /** A rejected limit stops emission after the closing text, with the
      pass's error as the walk's result. */
  lemma LimitBindFailureStops(inner: Fragment, rejects: I64 -> Option<Error>, e: Error, limit: Usize, offset: Usize)
    requires inner.outcome == Pass && rejects(AsI64(limit)) == Some(e)
    ensures Emitted(inner, rejects, limit, offset) == [Sql(OPEN)] + inner.emitted + [Sql(CLOSE_LIMIT)]
    ensures WalkResult(inner, rejects, limit, offset) == Fail(e)
  {
  }

  /** A rejected offset after an accepted limit stops emission after the
      offset text: the limit bind stays in the pass, and the pass's error is
      the walk's result. */
  lemma OffsetBindFailureStops(inner: Fragment, rejects: I64 -> Option<Error>, e: Error, limit: Usize, offset: Usize)
    requires inner.outcome == Pass && rejects(AsI64(limit)) == None && rejects(AsI64(offset)) == Some(e)
    ensures Emitted(inner, rejects, limit, offset)
         == [Sql(OPEN)] + inner.emitted + [Sql(CLOSE_LIMIT), Bind(AsI64(limit)), Sql(OFFSET)]
    ensures WalkResult(inner, rejects, limit, offset) == Fail(e)
  {
  }

  /** Whatever fails, what was appended is a prefix of what the successful
      walk appends: failures only cut emission short. */
  lemma FailedWalkIsPrefix(inner: Fragment, rejects: I64 -> Option<Error>, limit: Usize, offset: Usize)
    ensures Emitted(inner, rejects, limit, offset)
         <= Emitted(Fragment(inner.emitted, Pass), AcceptAll, limit, offset)
  {
  }

  /** The binds of what follows the closing text. */
  lemma BindingBinds(rejects: I64 -> Option<Error>, limit: Usize, offset: Usize)
    ensures Binds(Binding(rejects, limit, offset))
         == if rejects(AsI64(limit)).Some? then []
            else [AsI64(limit)] + (if rejects(AsI64(offset)).Some? then [] else [AsI64(offset)])
  {
    if rejects(AsI64(limit)).None? {
      var rest: seq<Tok> := if rejects(AsI64(offset)).Some? then [] else [Bind(AsI64(offset))];
      assert Binding(rejects, limit, offset) == [Bind(AsI64(limit))] + [Sql(OFFSET)] + rest;
      BindsConcat([Bind(AsI64(limit))] + [Sql(OFFSET)], rest);
      BindsConcat([Bind(AsI64(limit))], [Sql(OFFSET)]);
      BindsOfOne(Bind(AsI64(limit)));
      BindsOfOne(Sql(OFFSET));
      if rejects(AsI64(offset)).None? {
        BindsOfOne(Bind(AsI64(offset)));
      }
    }
  }

  /** The wrapper's binds come after all of the inner query's: the limit
      bind exactly when the inner walk succeeded and the limit was accepted,
      then the offset bind exactly when the offset was accepted too. */
  lemma {:induction false} WrapperBinds(inner: Fragment, rejects: I64 -> Option<Error>, limit: Usize, offset: Usize)
    ensures Binds(Emitted(inner, rejects, limit, offset))
         == Binds(inner.emitted)
            + (if inner.outcome.Fail? || rejects(AsI64(limit)).Some? then []
               else [AsI64(limit)] + (if rejects(AsI64(offset)).Some? then [] else [AsI64(offset)]))
  {
    var tail: seq<Tok> := if inner.outcome.Fail? then [] else [Sql(CLOSE_LIMIT)] + Binding(rejects, limit, offset);
    assert Emitted(inner, rejects, limit, offset) == [Sql(OPEN)] + inner.emitted + tail;
    BindsConcat([Sql(OPEN)], inner.emitted);
    BindsOfOne(Sql(OPEN));
    BindsConcat([Sql(OPEN)] + inner.emitted, tail);
    if inner.outcome.Pass? {
      BindsConcat([Sql(CLOSE_LIMIT)], Binding(rejects, limit, offset));
      BindsOfOne(Sql(CLOSE_LIMIT));
      BindingBinds(rejects, limit, offset);
    }
  }

  /** Walking a query built by `paginate(query, offset, limit)` binds its
      second argument first and its first argument second; values up to
      i64::MAX are bound as given. */
  lemma PaginatedWalkBindsLimitThenOffset<T>(query: T, offset: Usize, limit: Usize,
                                             walkQuery: T -> Fragment, rejects: I64 -> Option<Error>)
    requires WalkResult(walkQuery(query), rejects, limit, offset) == Pass
    ensures var p := Paginate(query, offset, limit);
      var bs := Binds(Emitted(walkQuery(p.query), rejects, p.limit, p.offset));
      && bs == Binds(walkQuery(query).emitted) + [AsI64(limit), AsI64(offset)]
      && (limit <= I64_MAX && offset <= I64_MAX ==> bs[|bs| - 2..] == [limit, offset])
  {
    var p := Paginate(query, offset, limit);
    WrapperBinds(walkQuery(p.query), rejects, p.limit, p.offset);
  }

  // ---------------------------------------------------------------------
  // Result splitting (`load_and_total`)
  // ---------------------------------------------------------------------

  /** `Vec::get`: the element at `i`, if there is one. */
  function At<X>(s: seq<X>, i: nat): (r: Option<X>)
    ensures r.Some? <==> i < |s|
    ensures i < |s| ==> r == Some(s[i])
  {
    if i < |s| then Some(s[i]) else None
  }

  /** The records of the loaded rows (`into_iter().map(|(record, _)| record)`). */
  function Records<U>(rows: seq<(U, I64)>): (us: seq<U>)
    ensures |us| == |rows|
    ensures forall i :: 0 <= i < |rows| ==> us[i] == rows[i].0
  {
    if rows == [] then [] else [rows[0].0] + Records(rows[1..])
  }

  /** The total count: that of the first row, or 0 with no rows. */
  function Total<U>(rows: seq<(U, I64)>): (total: I64)
    ensures |rows| == 0 ==> total == 0
    ensures |rows| > 0 ==> total == rows[0].1
  {
    At(rows, 0).Map((row: (U, I64)) => row.1).GetOr(0)
  }

  /** `load_and_total`, given the outcome of loading the rows. */
  function LoadAndTotal<U>(loaded: Result<seq<(U, I64)>>): (r: Result<(seq<U>, I64)>)
    ensures loaded.Err? ==> r == Err(loaded.error)
    ensures loaded.Ok? ==> r.Ok?
    ensures loaded.Ok? ==>
      && |r.value.0| == |loaded.value|
      && (forall i :: 0 <= i < |loaded.value| ==> r.value.0[i] == loaded.value[i].0)
      && r.value.1 == (if |loaded.value| == 0 then 0 else loaded.value[0].1)
  {
    var rows :- loaded;
    Ok((Records(rows), Total(rows)))
  }

  /** Rows after the first never affect the total. */
  lemma TotalIgnoresLaterRows<U>(rows: seq<(U, I64)>, later: seq<(U, I64)>)
    requires |rows| > 0
    ensures Total(rows + later) == Total(rows)
  {
  }

  /** Records of concatenated rows are the concatenated records. */
  lemma RecordsConcat<U>(a: seq<(U, I64)>, b: seq<(U, I64)>)
    ensures Records(a + b) == Records(a) + Records(b)
  {
  }

  /** Every record paired with the same count, as the windowed count yields. */
  function WithTotal<U>(us: seq<U>, total: I64): (rows: seq<(U, I64)>)
    ensures |rows| == |us|
    ensures forall i :: 0 <= i < |us| ==> rows[i] == (us[i], total)
  {
    seq(|us|, i requires 0 <= i < |us| => (us[i], total))
  }

  /** When every row carries the same count (what `COUNT(*) OVER ()` gives),
      the split loses nothing: pairing the records with the total rebuilds
      the rows. */
  lemma SplitRebuildsUniformRows<U>(rows: seq<(U, I64)>)
    requires forall i :: 0 <= i < |rows| ==> rows[i].1 == rows[0].1
    ensures WithTotal(Records(rows), Total(rows)) == rows
  {
  }

  /** Splitting rows built from records and a count gives them back. */
  lemma SplitOfWithTotal<U>(us: seq<U>, total: I64)
    ensures Records(WithTotal(us, total)) == us
    ensures |us| > 0 ==> Total(WithTotal(us, total)) == total
    ensures LoadAndTotal(Ok(WithTotal(us, total))) == Ok((us, if |us| == 0 then 0 else total))
  {
  }
}
