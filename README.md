# asyncpgsa connection core in Dafny

asyncpgsa lets SQLAlchemy statements run on an asyncpg connection. After
SQLAlchemy has compiled a statement, `asyncpgsa/connection.py` does a little
bookkeeping of its own, and this project models that bookkeeping:

- **Default resolution** (`_exec_default`): a column default is a sequence, a
  callable or a literal. A sequence becomes a `nextval(<name>)` expression. A
  callable is called with an empty context. A literal is used as it is.
- **Prefetch materialisation** (`execute_defaults`): the compiled parameter
  dictionary is copied. Each insert-prefetch column is then assigned its
  resolved `default`, and after that each update-prefetch column is assigned
  its resolved `onupdate`. The dictionary is an insertion-ordered Python
  `dict`: assigning to a key already present keeps its position, and
  assigning to a new key appends it (module `OrderedMaps`).
- **Query compilation front end** (`compile_query`): a raw string passes
  through with no arguments. A DDL statement gives its compiled text and no
  arguments. Any other statement flattens the materialised dictionary into a
  positional argument list. Each value goes through its key's bind processor
  when the key has one. With `inline=True` only the text comes back. Raw
  strings and DDL still come back as a pair even then, because they return
  before `inline` is looked at.
- **Argument selection** in `SAConnection._execute`, `execute` and `cursor`:
  each of them sends `compiled_args or args` to the driver. So the compiled
  arguments replace the caller's only when there is at least one.

The SQLAlchemy compiler is an input, not part of the model. A statement
arrives as the record `Compiled(text, isDdl, params, insertPrefetch,
updatePrefetch, processors)`, and `Query` is either `RawSql(text)` or
`Statement(compiled)`. Bind processors and callable defaults are arbitrary
Dafny functions.

`execute_defaults` changes a dictionary step by step, so it is the method
`Connection.ExecuteDefaults`, with two `for` loops. It is proved equal to
the specification function `Materialised`. Its postconditions also state the
resulting key order and the value of every key directly. `_exec_default`,
the post-processing in `compile_query` and the `or` in the wrapper are pure
code, so they are functions.

Two consequences of the code are worth stating:

- SQLAlchemy's compiler decides whether a sequence column is rendered into
  the SQL text or prefetched. When it prefetches one, `_exec_default` binds
  the compiled `nextval(<name>)` expression as that column's parameter value
  (`asyncpgsa/connection.py:20-21`), and so does the model (`NextVal`).
- The adapter rewrites no placeholders. It builds the dialect with the
  `numeric_dollar` paramstyle (`asyncpgsa/connection.py:9`), so the compiled
  text already carries `$n` placeholders, and `compile_query` passes it on
  unchanged.

Files:

- `wrappers.dfy`: `Option`.
- `ordered_maps.dfy`: the ordered dictionary.
- `connection.dfy`: the core.

## Model

| member | source | states |
|---|---|---|
| `Connection.ExecDefault` | asyncpgsa/connection.py:16-26 | the three cases in source order: a sequence gives `nextval(name)`, a callable gives its value on the empty context `{}`, a literal gives itself |
| `OrderedMaps.Set` | asyncpgsa/connection.py:34-37 | `params[key] = value`: an existing key keeps its position, a new key is appended; the key then maps to the value |
| `OrderedMaps.SetKeepsOthers` | asyncpgsa/connection.py:34-37 | `params[key] = value` leaves the lookup of every other key unchanged |
| `OrderedMaps.SetKeepsDistinct` | asyncpgsa/connection.py:34-37 | `params[key] = value` keeps the dictionary's keys distinct |
| `OrderedMaps.AppendedMembers` | asyncpgsa/connection.py:34-37 | the keys that a run of assignments appends are exactly the assigned keys that were missing, each appended once |
| `Connection.ApplyPrefetchKeys` | asyncpgsa/connection.py:34-35 | after one prefetch loop the old keys are still first and in the same order, followed by the new keys in the order they were first assigned |
| `Connection.ApplyPrefetchGet` | asyncpgsa/connection.py:36-37 | after one prefetch loop a key holds the resolved setting of the last column with that key, and keys no column names are unchanged |
| `Connection.ExecuteDefaults` | asyncpgsa/connection.py:29-39 | the result's keys are the compiled keys in compiled order, then each missing prefetch key once; each key holds its update-prefetch onupdate, otherwise its insert-prefetch default, otherwise its compiled value; keys are distinct |
| `Connection.MaterialisedKeyOrder` | asyncpgsa/connection.py:29-39 | key order of the materialised dictionary: compiled keys first, in compiled order, then the prefetch keys the compiled parameters lack, in first-assignment order |
| `Connection.MaterialisedValues` | asyncpgsa/connection.py:29-39 | every key of the materialised dictionary holds its expected value, with update prefetch over insert prefetch over the compiled value |
| `Connection.MaterialisedDistinct` | asyncpgsa/connection.py:32-37 | the materialised dictionary is a valid dictionary: no key occurs twice |
| `Connection.UpdatePrefetchWins` | asyncpgsa/connection.py:36-37 | the update loop runs second, so an update-prefetch column's resolved onupdate is the final value of its key, even when an insert-prefetch column shares the key |
| `Connection.InsertPrefetchApplies` | asyncpgsa/connection.py:34-35 | a key that no update-prefetch column names ends with the resolved default of its last insert-prefetch column |
| `Connection.UntouchedKeysKeepValues` | asyncpgsa/connection.py:30-32 | a key no prefetch column names keeps its compiled value, and a key that was absent stays absent |
| `Connection.PresentKeysKeepOrder` | asyncpgsa/connection.py:32-37 | when the compiled parameters already contain every prefetch key, the materialised keys are exactly the compiled keys in compiled order |
| `Connection.MissingKeysAppended` | asyncpgsa/connection.py:34-37 | a prefetch key that the compiled parameters lack ends up in the dictionary at a position after every compiled key |
| `Connection.UntouchedItemsStayInPlace` | asyncpgsa/connection.py:30-37 | a compiled item whose key no prefetch column names keeps both its position and its value |
| `Connection.BindArgs` | asyncpgsa/connection.py:65-72 | the list comprehension gives one argument per dictionary item, in item order; argument i is the item's value passed through its key's processor if there is one, and unchanged otherwise |
| `Connection.CompileQuery` | asyncpgsa/connection.py:42-78 | the returned text is always the query's own text (raw or compiled); only a non-DDL statement with `inline=True` returns the text alone; arguments are non-empty only for a non-DDL compiled statement |
| `Connection.RawSqlPassesThrough` | asyncpgsa/connection.py:43-45 | a raw string comes back unchanged with an empty argument list, whatever `inline` is |
| `Connection.DdlIgnoresDefaults` | asyncpgsa/connection.py:56-57 | a DDL statement gives its compiled text and no arguments, whatever parameters, prefetch columns and processors were compiled and whatever `inline` is |
| `Connection.CompiledArguments` | asyncpgsa/connection.py:59-78 | for other statements there is one argument per materialised key, in materialised key order; argument i is that key's expected value after its processor |
| `Connection.UntouchedArgument` | asyncpgsa/connection.py:65-72 | a compiled item that no prefetch column touches gives the argument at its own position: its value after its key's processor |
| `Connection.InsertDefaultsInColumnOrder` | tests/test_defaults.py:112-124 | an INSERT whose bound columns are all insert-prefetch columns, in compiled order, passes their resolved defaults in that column order |
| `Connection.WhereArgumentsFollowSet` | tests/test_defaults.py:237-250 | when the compiled parameters are SET items followed by WHERE items and no WHERE key is prefetched, each WHERE item is passed at its own position, after all SET positions |
| `Connection.ArgumentsCoverParams` | asyncpgsa/connection.py:59-72 | every compiled item gives an argument: the argument list is at least as long as the compiled parameters |
| `Connection.SelectArgs` | asyncpgsa/connection.py:97 | `compiled_args or args`: the compiled arguments when there is at least one, the caller's otherwise |
| `Connection.Forward` | asyncpgsa/connection.py:96-97 | the text handed to the driver is the query's own text |
| `Connection.ForwardKeepsCallerArgs` | asyncpgsa/connection.py:96-116 | for raw SQL and DDL, `_execute`, `execute` and `cursor` forward the caller's arguments unchanged |
| `Connection.ForwardSubstitutes` | asyncpgsa/connection.py:96-116 | for other statements, the caller's arguments are replaced by the compiled ones exactly when the materialised dictionary is non-empty |

## Left out

- The SQLAlchemy compiler is not modelled: SQL rendering, `$n` placeholder numbering, `::TYPE` casts, `render_postcompile`, and the compiler's choice of which columns to prefetch. Its output is an input record.
- `get_dialect` and the module-level `_dialect`, and `SAConnection.__init__`'s `dialect or _dialect`: these only configure the compiler, which is not modelled.
- The `query_logger.debug` calls are not modelled. They are an output sink with nothing to state.
- The calls to asyncpg's `_execute`, `execute` and `cursor` (`super()` delegation) are not modelled. The model stops at the text and arguments handed to them. Async behaviour, pooling, transactions and network I/O are also out.
- What callable defaults and bind processors compute (`uuid4`, enum-to-name) is not modelled. They are arbitrary total Dafny functions. So the model treats them as deterministic and as never raising. A callable that raises, which the code lets propagate, is not modelled.
- A bind-processor entry that is a tuple of processors (the FIXME in `compile_query`) is not modelled. Neither are clause-element and insert-sentinel defaults, which `_exec_default` marks as unsupported.
- `Connection.ExecuteDefaults`: requires that each prefetch column has the setting it is prefetched for. SQLAlchemy only prefetches such columns. The code would fail with an `AttributeError` on a missing one.
- `Connection.ExecuteDefaults`: the copy of `compiled.params` is implicit, because dictionaries are values in the model. Mutation through an alias of the compiled parameters therefore cannot arise, and is not modelled.
- `Connection.CompileQuery`: with `inline=True`, the code still runs `execute_defaults`, and so still calls the callable defaults, before it returns the text. Those calls are pure in the model, so the extra work cannot be seen.
- `Connection.CompileQuery`: the code returns `()` for raw strings and DDL but a `list` otherwise. Both are a plain sequence in the model. Only their emptiness matters to `compiled_args or args`, and both empty forms are falsy.
