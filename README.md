# Pagination decorator for a query builder

A model of `src/pagination.rs`, a small extension to the diesel query
builder. Any query can be wrapped by `paginate(offset, limit)`. When the
wrapped query is turned into SQL, the inner query's SQL is embedded as
`SELECT *, COUNT(*) OVER () FROM (<inner>) t LIMIT <limit> OFFSET <offset>`,
with limit and offset as bound `BigInt` parameters. This is done the same way
for Postgres and for MySQL. `load_and_total` runs the query and splits the
returned `(record, count)` rows into the page's records and the total row
count.

Files:

- `Wrappers.dfy`: the library's error, `Option`, `Result` (`QueryResult<T>`)
  and `Outcome` (`QueryResult<()>`).
- `Casts.dfy`: `usize` and `i64` as bounded integers (a 64-bit target), and
  `v as i64` as two's-complement reinterpretation.
- `Ast.dfy`: the AST pass as a class holding an append-only sequence of
  tokens (`Sql(text)` or `Bind(i64)`). `PushSql`, `PushBindParam` and a nested
  walk (`Walk`) append to it. A nested query's walk is a `Fragment`: the
  tokens it appends, then its outcome.
- `Pagination.dfy`: `PaginatedQuery`, `Paginate`, the two `walk_ast` methods
  and `load_and_total`. Both methods are proved against one specification,
  the functions `Emitted` and `WalkResult`. The lemmas beside them state what
  that specification means.

## Model

| member | source | states |
|---|---|---|
| `Pagination.Paginate` | src/pagination.rs:10-17 | the wrapped query keeps the query unchanged and stores offset and limit exactly as given, each in its own field |
| `Pagination.WalkAstPg` | src/pagination.rs:57-65 | the Postgres walk appends exactly `Emitted(...)` to what the pass already held, and returns `WalkResult(...)`, the first error met; earlier tokens are untouched, and the pass still holds only binds it accepted |
| `Pagination.WalkAstMysql` | src/pagination.rs:72-80 | the MySQL walk meets the same two postconditions as the Postgres walk, so both dialects emit identical tokens and return identical results for the same inner walk, limit and offset |
| `Pagination.SuccessfulWalkEmits` | src/pagination.rs:58-63 | a successful walk appends, in order: the opening text, the inner tokens, `) t LIMIT `, the limit bind, ` OFFSET `, the offset bind |
| `Pagination.InnerEmbeddedUnchanged` | src/pagination.rs:58-60 | the inner tokens appear unchanged and contiguous right after the opening text; when the inner walk succeeds, the closing text comes next |
| `Pagination.InnerFailureStops` | src/pagination.rs:59 | when the inner walk fails, nothing is appended after its tokens, and its error is the walk's result |
| `Pagination.LimitBindFailureStops` | src/pagination.rs:60-61 | when the pass rejects the limit, emission stops after `) t LIMIT `, and the pass's error is the walk's result |
| `Pagination.OffsetBindFailureStops` | src/pagination.rs:61-63 | when the pass accepts the limit but rejects the offset, the limit bind and ` OFFSET ` stay in the pass, nothing follows them, and the pass's error is the walk's result |
| `Pagination.WalkSucceedsIff` | src/pagination.rs:59-64 | the walk returns success exactly when the inner walk succeeds and the pass accepts both the limit and the offset |
| `Pagination.FailedWalkIsPrefix` | src/pagination.rs:58-64 | whatever fails, what is appended is a prefix of what the fully successful walk appends |
| `Pagination.WrapperBinds` | src/pagination.rs:61-63 | the wrapper's binds come after all of the inner query's binds: the limit bind exactly when the inner walk succeeded and the limit was accepted, then the offset bind exactly when the offset was accepted too; these are its only binds |
| `Pagination.PaginatedWalkBindsLimitThenOffset` | src/pagination.rs:61-63 | for a query built by `paginate(query, offset, limit)`, when the walk succeeds, its binds end with the limit and then the offset; values up to i64::MAX are bound as given |
| `Ast.AstPass.PushSql` | src/pagination.rs:58 | `push_sql` appends one text token and changes nothing else |
| `Ast.AstPass.PushBindParam` | src/pagination.rs:61 | `push_bind_param` appends one bind token and succeeds when the pass accepts the value; otherwise it appends nothing and returns the pass's error for that value |
| `Ast.AstPass.Walk` | src/pagination.rs:59 | the inner walk on the reborrowed pass appends its tokens as they are and returns its own outcome; its binds went through the same pass, so the pass still holds only binds it accepted |
| `Casts.AsI64` | src/pagination.rs:61 | `v as i64` is congruent to `v` modulo 2^64 and within i64 range; it is non-negative exactly when `v <= i64::MAX` |
| `Casts.AsI64Unique` | src/pagination.rs:61 | no other i64 is congruent to `v` modulo 2^64, so the congruence fully determines the cast |
| `Casts.AsI64KeepsSmall` | src/pagination.rs:61 | a `usize` up to i64::MAX is bound unchanged |
| `Casts.AsI64WrapsLarge` | src/pagination.rs:63 | a `usize` above i64::MAX wraps to `v - 2^64`, a negative bind |
| `Casts.AsI64Injective` | src/pagination.rs:61 | distinct `usize` values give distinct binds |
| `Wrappers.Option.Map` | src/pagination.rs:36 | `.map(f)` is `Some(f(x))` for `Some(x)` and `None` for `None` |
| `Wrappers.Option.GetOr` | src/pagination.rs:36 | `.unwrap_or(d)` is the contained value, or `d` when there is none |
| `Pagination.At` | src/pagination.rs:36 | `get(i)` gives the element at `i` exactly when `i` is in range |
| `Pagination.Records` | src/pagination.rs:37 | the records have the rows' length and order, and each is the first component of its row |
| `Pagination.Total` | src/pagination.rs:36 | the total is the first row's count, or 0 when there are no rows |
| `Pagination.LoadAndTotal` | src/pagination.rs:31-39 | a load error is returned as is, with no partial result; otherwise the result is the records in row order and the first row's count, or 0 for no rows |
| `Pagination.TotalIgnoresLaterRows` | src/pagination.rs:36 | rows after the first never affect the total |
| `Pagination.RecordsConcat` | src/pagination.rs:37 | the records of concatenated rows are the concatenated records, so row order is kept |
| `Pagination.SplitRebuildsUniformRows` | src/pagination.rs:35-38 | when all rows carry the same count, as a windowed count does, pairing the records with the total gives back the rows |
| `Pagination.SplitOfWithTotal` | src/pagination.rs:35-38 | splitting rows built from records and one count gives back those records and that count |

## Left out

- The trait plumbing: `QueryId`, the `Query::SqlType` pair `(T::SqlType, BigInt)`, the empty `RunQueryDsl` impl and the `PhantomData` markers. These only wire the type into the library's type system.
- `internal_load`, the connection and SQL execution. These are foreign I/O. `LoadAndTotal` takes the outcome of loading as a parameter, a `Result` over `(record, i64)` rows.
- The inner query's own `walk_ast`. It is a parameter `walkQuery`: for each inner query, the tokens it appends and its outcome.
- What `COUNT(*) OVER ()`, `LIMIT` and `OFFSET` mean inside the database. The code only emits this text.
- Bind encoding and the dialects' placeholder syntax (`$1` against `?`). These happen inside the library's `push_bind_param`. A bind is a token carrying its i64 value. Whether the pass's bind collector rejects a value, and with which error, is a function of the value (`AstPass.rejects`). Each bind of the walk, the limit's and the offset's, can therefore fail on its own.
- The inner query's walk writes into the same pass, so its binds are ones the pass accepts. The walks require this of `walkQuery` (`AcceptedBy`), because the model takes the inner walk's effect as given rather than running it through the pass.
- The target is assumed to have 64-bit `usize`.
