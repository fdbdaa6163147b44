/**
 * The post-compilation bookkeeping of the asyncpg adapter: resolving column
 * defaults that the SQL compiler asked to be computed before execution
 * ("prefetch" columns), flattening the compiled parameter dictionary into the
 * positional argument list the driver expects, and choosing which arguments a
 * connection method hands to the driver.
 *
 * The SQL compiler is not modelled: a statement arrives already compiled, as
 * a record holding the compiler's outputs.
 */
module Connection {
  import opened Wrappers
  import opened OrderedMaps

  type Key = string

  /**
   * A parameter value. The adapter never looks inside a value it binds, so
   * every value other than a compiled `nextval` call is `Opaque`.
   */
  datatype Value =
    | Opaque(tag: string)
      /** The compiled SQL expression `nextval(<sequence>)`. */
    | NextVal(sequence: string)

  /** The execution context handed to a callable default. */
  type Context = map<string, Value>

  /** A column's `default` or `onupdate` setting. */
  datatype Default =
    | Sequence(name: string)
    | Callable(fn: Context -> Value)
    | Literal(arg: Value)

  datatype Column = Column(key: Key, default: Option<Default>, onupdate: Option<Default>)

  /**
   * What the compiler produces for one statement: the SQL text, whether it is
   * DDL, the bound parameters in placeholder order, the columns whose default
   * (for INSERT) or onupdate (for UPDATE) must be computed by the caller, and
   * the per-key bind processors of the column types.
   */
  datatype Compiled = Compiled(
    text: string,
    isDdl: bool,
    params: Entries<Key, Value>,
    insertPrefetch: seq<Column>,
    updatePrefetch: seq<Column>,
    processors: map<Key, Value -> Value>)

  /** The argument of `compile_query`: raw SQL text, or a statement for the compiler. */
  datatype Query = RawSql(sql: string) | Statement(compiled: Compiled)

  /** What `compile_query` returns: SQL text with its arguments, or (inline) the text alone. */
  datatype Output = Prepared(sql: string, args: seq<Value>) | TextOnly(sql: string)

  // ---------------------------------------------------------------------------
  // Default resolution (`_exec_default`)
  // ---------------------------------------------------------------------------

  /**
   * The value a default contributes: a sequence becomes a `nextval` expression,
   * a callable is invoked with an empty context, anything else is the literal.
   */
  function ExecDefault(d: Default): (v: Value)
    ensures d.Sequence? ==> v == NextVal(d.name)
    ensures d.Callable? ==> v == d.fn(map[])
    ensures d.Literal? ==> v == d.arg
  {
    match d
    case Sequence(name) => NextVal(name)
    case Callable(fn) => fn(map[])
    case Literal(arg) => arg
  }

  // ---------------------------------------------------------------------------
  // Prefetch materialisation (`execute_defaults`)
  // ---------------------------------------------------------------------------

  /** Which of a column's settings a prefetch list asks for. */
  datatype Stage = Insert | Update

  function DefaultFor(col: Column, stage: Stage): Option<Default>
  {
    match stage
    case Insert => col.default
    case Update => col.onupdate
  }

  /** The compiler only prefetches a column that has the setting it is prefetched for. */
  predicate Prefetchable(cols: seq<Column>, stage: Stage)
  {
    forall i :: 0 <= i < |cols| ==> DefaultFor(cols[i], stage).Some?
  }

  /** A compiled statement whose defaults can be executed. */
  predicate CanMaterialise(c: Compiled)
  {
    && DistinctKeys(c.params)
    && Prefetchable(c.insertPrefetch, Insert)
    && Prefetchable(c.updatePrefetch, Update)
  }

  /** The value a prefetch column is assigned. */
  function Resolved(col: Column, stage: Stage): Value
    requires DefaultFor(col, stage).Some?
  {
    ExecDefault(DefaultFor(col, stage).value)
  }

  function ColumnKeys(cols: seq<Column>): (ks: seq<Key>)
    ensures |ks| == |cols|
    ensures forall i :: 0 <= i < |cols| ==> ks[i] == cols[i].key
  {
    if cols == [] then [] else ColumnKeys(cols[..|cols| - 1]) + [cols[|cols| - 1].key]
  }

  /** The keys `execute_defaults` assigns, in the order it assigns them. */
  function PrefetchKeys(c: Compiled): seq<Key>
  {
    ColumnKeys(c.insertPrefetch) + ColumnKeys(c.updatePrefetch)
  }

  /** The dictionary after assigning each column of `cols`, in order, its resolved setting. */
  function ApplyPrefetch(m: Entries<Key, Value>, cols: seq<Column>, stage: Stage): Entries<Key, Value>
    requires Prefetchable(cols, stage)
  {
    if cols == [] then m
    else
      var last := cols[|cols| - 1];
      Set(ApplyPrefetch(m, cols[..|cols| - 1], stage), last.key, Resolved(last, stage))
  }

  /** The parameter dictionary `execute_defaults` builds. */
  function Materialised(c: Compiled): Entries<Key, Value>
    requires CanMaterialise(c)
  {
    ApplyPrefetch(ApplyPrefetch(c.params, c.insertPrefetch, Insert), c.updatePrefetch, Update)
  }

  /** The resolved setting of the last column of `cols` with key `k`, if any. */
  function LastResolved(cols: seq<Column>, k: Key, stage: Stage): Option<Value>
    requires Prefetchable(cols, stage)
  {
    if cols == [] then None
    else if cols[|cols| - 1].key == k then Some(Resolved(cols[|cols| - 1], stage))
    else LastResolved(cols[..|cols| - 1], k, stage)
  }

  /**
   * The value key `k` should end up with: an update-prefetch column's onupdate
   * wins, then an insert-prefetch column's default, then the compiled value.
   */
  function Expected(c: Compiled, k: Key): Option<Value>
    requires CanMaterialise(c)
  {
    OrElse(LastResolved(c.updatePrefetch, k, Update),
           OrElse(LastResolved(c.insertPrefetch, k, Insert), Get(c.params, k)))
  }

  /** The key order of the result: the compiled keys, then each new prefetch key once. */
  function MaterialisedKeys(c: Compiled): seq<Key>
  {
    KeysOf(c.params) + Appended(KeysOf(c.params), PrefetchKeys(c))
  }

  /**
   * Copies the compiled parameters, assigns each insert-prefetch column its
   * resolved default and then each update-prefetch column its resolved
   * onupdate.
   */
  method ExecuteDefaults(c: Compiled) returns (params: Entries<Key, Value>)
    requires CanMaterialise(c)
    ensures params == Materialised(c)
    ensures KeysOf(params) == MaterialisedKeys(c)
    ensures forall k :: Get(params, k) == Expected(c, k)
    ensures DistinctKeys(params)
  {
    params := c.params;
    for i := 0 to |c.insertPrefetch|
      invariant params == ApplyPrefetch(c.params, c.insertPrefetch[..i], Insert)
    {
      var column := c.insertPrefetch[i];
      ApplyPrefetchStep(c.params, c.insertPrefetch, i, Insert);
      params := Set(params, column.key, ExecDefault(column.default.value));
    }
    assert c.insertPrefetch[..|c.insertPrefetch|] == c.insertPrefetch;
    ghost var afterInsert := params;
    for i := 0 to |c.updatePrefetch|
      invariant params == ApplyPrefetch(afterInsert, c.updatePrefetch[..i], Update)
    {
      var column := c.updatePrefetch[i];
      ApplyPrefetchStep(afterInsert, c.updatePrefetch, i, Update);
      params := Set(params, column.key, ExecDefault(column.onupdate.value));
    }
    assert c.updatePrefetch[..|c.updatePrefetch|] == c.updatePrefetch;
    MaterialisedKeyOrder(c);
    MaterialisedValues(c);
    MaterialisedDistinct(c);
  }

  /** One more iteration of a prefetch loop assigns the next column its resolved setting. */
  lemma ApplyPrefetchStep(m: Entries<Key, Value>, cols: seq<Column>, i: nat, stage: Stage)
    requires Prefetchable(cols, stage)
    requires i < |cols|
    ensures Prefetchable(cols[..i], stage) && Prefetchable(cols[..i + 1], stage)
    ensures ApplyPrefetch(m, cols[..i + 1], stage)
         == Set(ApplyPrefetch(m, cols[..i], stage), cols[i].key, Resolved(cols[i], stage))
  {
    assert cols[..i + 1][..i] == cols[..i];
  }

  /** Key order after one prefetch pass: the old keys in place, new ones appended. */
  lemma {:induction false} ApplyPrefetchKeys(m: Entries<Key, Value>, cols: seq<Column>, stage: Stage)
    requires Prefetchable(cols, stage)
    ensures KeysOf(ApplyPrefetch(m, cols, stage)) == KeysOf(m) + Appended(KeysOf(m), ColumnKeys(cols))
  {
    if cols != [] {
      var init, last := cols[..|cols| - 1], cols[|cols| - 1];
      ApplyPrefetchKeys(m, init, stage);
      var before := ApplyPrefetch(m, init, stage);
      assert ColumnKeys(cols) == ColumnKeys(init) + [last.key];
      AppendedSnoc(KeysOf(m), ColumnKeys(init), last.key);
      var after := Set(before, last.key, Resolved(last, stage));
      assert KeysOf(after) == if last.key in KeysOf(before) then KeysOf(before) else KeysOf(before) + [last.key];
    }
  }

  /** Values after one prefetch pass: the last column with a key wins, other keys are untouched. */
  lemma {:induction false} ApplyPrefetchGet(m: Entries<Key, Value>, cols: seq<Column>, stage: Stage, k: Key)
    requires Prefetchable(cols, stage)
    ensures Get(ApplyPrefetch(m, cols, stage), k) == OrElse(LastResolved(cols, k, stage), Get(m, k))
  {
    if cols != [] {
      var init, last := cols[..|cols| - 1], cols[|cols| - 1];
      ApplyPrefetchGet(m, init, stage, k);
      if last.key != k {
        SetKeepsOthers(ApplyPrefetch(m, init, stage), last.key, Resolved(last, stage), k);
      }
    }
  }

  lemma {:induction false} ApplyPrefetchDistinct(m: Entries<Key, Value>, cols: seq<Column>, stage: Stage)
    requires Prefetchable(cols, stage)
    requires DistinctKeys(m)
    ensures DistinctKeys(ApplyPrefetch(m, cols, stage))
  {
    if cols != [] {
      var init, last := cols[..|cols| - 1], cols[|cols| - 1];
      ApplyPrefetchDistinct(m, init, stage);
      SetKeepsDistinct(ApplyPrefetch(m, init, stage), last.key, Resolved(last, stage));
    }
  }

  /**
   * The materialised keys are the compiled keys in their compiled order,
   * followed by every prefetch key the compiled parameters lack, once each, in
   * the order the prefetch lists first name them.
   */
  lemma MaterialisedKeyOrder(c: Compiled)
    requires CanMaterialise(c)
    ensures KeysOf(Materialised(c)) == MaterialisedKeys(c)
  {
    var k0 := KeysOf(c.params);
    var insertKeys, updateKeys := ColumnKeys(c.insertPrefetch), ColumnKeys(c.updatePrefetch);
    var afterInsert := ApplyPrefetch(c.params, c.insertPrefetch, Insert);
    ApplyPrefetchKeys(c.params, c.insertPrefetch, Insert);
    ApplyPrefetchKeys(afterInsert, c.updatePrefetch, Update);
    AppendedTwice(k0, insertKeys, updateKeys);
  }

  /** Every key of the materialised dictionary holds its `Expected` value. */
  lemma MaterialisedValues(c: Compiled)
    requires CanMaterialise(c)
    ensures forall k :: Get(Materialised(c), k) == Expected(c, k)
  {
    forall k ensures Get(Materialised(c), k) == Expected(c, k) {
      var afterInsert := ApplyPrefetch(c.params, c.insertPrefetch, Insert);
      ApplyPrefetchGet(c.params, c.insertPrefetch, Insert, k);
      ApplyPrefetchGet(afterInsert, c.updatePrefetch, Update, k);
    }
  }

  lemma MaterialisedDistinct(c: Compiled)
    requires CanMaterialise(c)
    ensures DistinctKeys(Materialised(c))
  {
    ApplyPrefetchDistinct(c.params, c.insertPrefetch, Insert);
    ApplyPrefetchDistinct(ApplyPrefetch(c.params, c.insertPrefetch, Insert), c.updatePrefetch, Update);
  }

  /** `LastResolved` finds the last column of `cols` with the key, and nothing when none has it. */
  lemma {:induction false} LastResolvedAt(cols: seq<Column>, stage: Stage, i: nat)
    requires Prefetchable(cols, stage)
    requires i < |cols|
    requires forall j :: i < j < |cols| ==> cols[j].key != cols[i].key
    ensures LastResolved(cols, cols[i].key, stage) == Some(Resolved(cols[i], stage))
  {
    if i < |cols| - 1 {
      LastResolvedAt(cols[..|cols| - 1], stage, i);
    }
  }

  lemma {:induction false} LastResolvedAbsent(cols: seq<Column>, stage: Stage, k: Key)
    requires Prefetchable(cols, stage)
    requires k !in ColumnKeys(cols)
    ensures LastResolved(cols, k, stage) == None
  {
    if cols != [] {
      assert ColumnKeys(cols) == ColumnKeys(cols[..|cols| - 1]) + [cols[|cols| - 1].key];
      LastResolvedAbsent(cols[..|cols| - 1], stage, k);
    }
  }

  /** Update prefetch runs second, so a column's onupdate wins over everything else on its key. */
  lemma UpdatePrefetchWins(c: Compiled, i: nat)
    requires CanMaterialise(c)
    requires i < |c.updatePrefetch|
    requires forall j :: i < j < |c.updatePrefetch| ==> c.updatePrefetch[j].key != c.updatePrefetch[i].key
    ensures Get(Materialised(c), c.updatePrefetch[i].key) == Some(ExecDefault(c.updatePrefetch[i].onupdate.value))
  {
    MaterialisedValues(c);
    LastResolvedAt(c.updatePrefetch, Update, i);
  }

  /** A key no update-prefetch column names gets the default of its last insert-prefetch column. */
  lemma InsertPrefetchApplies(c: Compiled, i: nat)
    requires CanMaterialise(c)
    requires i < |c.insertPrefetch|
    requires forall j :: i < j < |c.insertPrefetch| ==> c.insertPrefetch[j].key != c.insertPrefetch[i].key
    requires c.insertPrefetch[i].key !in ColumnKeys(c.updatePrefetch)
    ensures Get(Materialised(c), c.insertPrefetch[i].key) == Some(ExecDefault(c.insertPrefetch[i].default.value))
  {
    MaterialisedValues(c);
    LastResolvedAt(c.insertPrefetch, Insert, i);
    LastResolvedAbsent(c.updatePrefetch, Update, c.insertPrefetch[i].key);
  }

  /** A key that no prefetch column names keeps its compiled value (or stays absent). */
  lemma UntouchedKeysKeepValues(c: Compiled, k: Key)
    requires CanMaterialise(c)
    requires k !in PrefetchKeys(c)
    ensures Get(Materialised(c), k) == Get(c.params, k)
  {
    MaterialisedValues(c);
    LastResolvedAbsent(c.insertPrefetch, Insert, k);
    LastResolvedAbsent(c.updatePrefetch, Update, k);
  }

  /**
   * When the compiled parameters already hold every prefetch key, the
   * materialised dictionary has exactly the compiled keys in the compiled
   * order, so positional arguments stay aligned with the compiler's
   * placeholders.
   */
  lemma PresentKeysKeepOrder(c: Compiled)
    requires CanMaterialise(c)
    requires forall k :: k in PrefetchKeys(c) ==> k in KeysOf(c.params)
    ensures KeysOf(Materialised(c)) == KeysOf(c.params)
  {
    MaterialisedKeyOrder(c);
    AppendedNothing(KeysOf(c.params), PrefetchKeys(c));
  }

  /** Prefetch keys the compiled parameters lack are appended after all compiled keys. */
  lemma MissingKeysAppended(c: Compiled, k: Key)
    requires CanMaterialise(c)
    requires k in PrefetchKeys(c) && k !in KeysOf(c.params)
    ensures k in KeysOf(Materialised(c))
    ensures forall i :: 0 <= i < |KeysOf(Materialised(c))| && KeysOf(Materialised(c))[i] == k ==> i >= |c.params|
  {
    MaterialisedKeyOrder(c);
    AppendedMembers(KeysOf(c.params), PrefetchKeys(c));
  }

  /**
   * An item of the compiled parameters whose key no prefetch column names
   * keeps both its position and its value.
   */
  lemma UntouchedItemsStayInPlace(c: Compiled, i: nat)
    requires CanMaterialise(c)
    requires i < |c.params|
    requires c.params[i].0 !in PrefetchKeys(c)
    ensures i < |Materialised(c)| && Materialised(c)[i] == c.params[i]
  {
    var m := Materialised(c);
    MaterialisedKeyOrder(c);
    MaterialisedDistinct(c);
    assert m[i].0 == KeysOf(m)[i] == KeysOf(c.params)[i] == c.params[i].0;
    EntryAt(m, i);
    EntryAt(c.params, i);
    UntouchedKeysKeepValues(c, c.params[i].0);
  }

  // ---------------------------------------------------------------------------
  // Query compilation front end (`compile_query`)
  // ---------------------------------------------------------------------------

  /** A value after its key's bind processor, when the key has one. */
  function Bind(processors: map<Key, Value -> Value>, k: Key, v: Value): Value
  {
    if k in processors then processors[k](v) else v
  }

  /** The list comprehension over the dictionary's items: one argument per item, in order. */
  function BindArgs(entries: Entries<Key, Value>, processors: map<Key, Value -> Value>): (args: seq<Value>)
    ensures |args| == |entries|
    ensures forall i :: 0 <= i < |entries| ==> args[i] == Bind(processors, entries[i].0, entries[i].1)
  {
    if entries == [] then []
    else [Bind(processors, entries[0].0, entries[0].1)] + BindArgs(entries[1..], processors)
  }

  /** `new_params`: the materialised dictionary flattened through the bind processors. */
  function Arguments(c: Compiled): seq<Value>
    requires CanMaterialise(c)
  {
    BindArgs(Materialised(c), c.processors)
  }

  /** The caller's side of `compile_query`: a query it can compile without failing. */
  predicate Compilable(q: Query)
  {
    q.Statement? && !q.compiled.isDdl ==> CanMaterialise(q.compiled)
  }

  /** The SQL text of a query: raw text as given, otherwise the compiler's string. */
  function SqlText(q: Query): string
  {
    match q
    case RawSql(sql) => sql
    case Statement(c) => c.text
  }

  /**
   * `compile_query(query, inline)`. Raw text and DDL come back with no
   * arguments and are untouched by defaults and processors; otherwise the
   * materialised dictionary is flattened through the bind processors, and
   * `inline` keeps only the text.
   */
  function CompileQuery(q: Query, inline: bool): (r: Output)
    requires Compilable(q)
    ensures r.sql == SqlText(q)
    ensures r.TextOnly? <==> inline && q.Statement? && !q.compiled.isDdl
    ensures r.Prepared? && r.args != [] ==> q.Statement? && !q.compiled.isDdl
  {
    match q
    case RawSql(sql) => Prepared(sql, [])
    case Statement(c) =>
      if c.isDdl then Prepared(c.text, [])
      else
        var args := Arguments(c);
        if inline then TextOnly(c.text) else Prepared(c.text, args)
  }

  /** A raw SQL string passes through with an empty argument list, inline or not. */
  lemma RawSqlPassesThrough(sql: string, inline: bool)
    ensures CompileQuery(RawSql(sql), inline) == Prepared(sql, [])
  {
  }

  /**
   * A DDL statement yields its text and no arguments, whatever parameters,
   * prefetch columns and processors the compiler reported.
   */
  lemma DdlIgnoresDefaults(c: Compiled, d: Compiled, inline: bool)
    requires c.isDdl && d.isDdl && c.text == d.text
    ensures CompileQuery(Statement(c), inline) == CompileQuery(Statement(d), false) == Prepared(c.text, [])
  {
  }

  /**
   * For any other statement, argument i is the materialised value of the i-th
   * materialised key, passed through that key's processor when it has one.
   */
  lemma CompiledArguments(c: Compiled)
    requires CanMaterialise(c) && !c.isDdl
    ensures CompileQuery(Statement(c), false) == Prepared(c.text, Arguments(c))
    ensures |Arguments(c)| == |MaterialisedKeys(c)|
    ensures forall i :: 0 <= i < |MaterialisedKeys(c)| ==>
      && Expected(c, MaterialisedKeys(c)[i]).Some?
      && Arguments(c)[i]
         == Bind(c.processors, MaterialisedKeys(c)[i], Expected(c, MaterialisedKeys(c)[i]).value)
  {
    var m := Materialised(c);
    var ks := MaterialisedKeys(c);
    var args := Arguments(c);
    MaterialisedKeyOrder(c);
    MaterialisedValues(c);
    MaterialisedDistinct(c);
    forall i | 0 <= i < |ks|
      ensures Expected(c, ks[i]).Some? && args[i] == Bind(c.processors, ks[i], Expected(c, ks[i]).value)
    {
      EntryAt(m, i);
    }
  }

  /**
   * An INSERT whose bound columns are all insert-prefetch columns, listed in
   * the order of the compiled parameters, passes the resolved defaults in
   * that column order.
   */
  lemma InsertDefaultsInColumnOrder(c: Compiled)
    requires CanMaterialise(c) && !c.isDdl
    requires ColumnKeys(c.insertPrefetch) == KeysOf(c.params)
    requires c.updatePrefetch == []
    ensures |Arguments(c)| == |c.insertPrefetch|
    ensures forall i :: 0 <= i < |c.insertPrefetch| ==>
      Arguments(c)[i] == Bind(c.processors, c.insertPrefetch[i].key, ExecDefault(c.insertPrefetch[i].default.value))
  {
    assert MaterialisedKeys(c) == ColumnKeys(c.insertPrefetch) by {
      assert PrefetchKeys(c) == KeysOf(c.params);
      PresentKeysKeepOrder(c);
      MaterialisedKeyOrder(c);
    }
    CompiledArguments(c);
    forall i | 0 <= i < |c.insertPrefetch|
      ensures Arguments(c)[i] == Bind(c.processors, c.insertPrefetch[i].key, ExecDefault(c.insertPrefetch[i].default.value))
    {
      InsertDefaultAt(c, i);
    }
  }

  lemma InsertDefaultAt(c: Compiled, i: nat)
    requires CanMaterialise(c)
    requires ColumnKeys(c.insertPrefetch) == KeysOf(c.params)
    requires c.updatePrefetch == []
    requires i < |c.insertPrefetch|
    ensures Expected(c, c.insertPrefetch[i].key) == Some(ExecDefault(c.insertPrefetch[i].default.value))
  {
    var ks := ColumnKeys(c.insertPrefetch);
    forall j | i < j < |c.insertPrefetch| ensures c.insertPrefetch[j].key != c.insertPrefetch[i].key {
      assert ks[j] == c.insertPrefetch[j].key && ks[i] == c.insertPrefetch[i].key;
    }
    LastResolvedAt(c.insertPrefetch, Insert, i);
  }

  /**
   * The arguments keep the order of the compiled parameters: when those are
   * SET-clause items followed by WHERE-clause items and no WHERE parameter
   * is a prefetch column, every WHERE item is passed, bound, at its own
   * position, after all the positions of the SET clause.
   */
  lemma WhereArgumentsFollowSet(c: Compiled, setItems: Entries<Key, Value>, whereItems: Entries<Key, Value>)
    requires CanMaterialise(c) && !c.isDdl
    requires c.params == setItems + whereItems
    requires forall k :: k in PrefetchKeys(c) ==> k !in KeysOf(whereItems)
    ensures |c.params| <= |Arguments(c)|
    ensures forall j :: |setItems| <= j < |c.params| ==>
      Arguments(c)[j] == Bind(c.processors, c.params[j].0, c.params[j].1)
  {
    ArgumentsCoverParams(c);
    forall j | |setItems| <= j < |c.params|
      ensures Arguments(c)[j] == Bind(c.processors, c.params[j].0, c.params[j].1)
    {
      WhereArgumentAt(c, setItems, whereItems, j);
    }
  }

  /** One WHERE item of `WhereArgumentsFollowSet`. */
  lemma WhereArgumentAt(c: Compiled, setItems: Entries<Key, Value>, whereItems: Entries<Key, Value>, j: nat)
    requires CanMaterialise(c) && !c.isDdl
    requires c.params == setItems + whereItems
    requires forall k :: k in PrefetchKeys(c) ==> k !in KeysOf(whereItems)
    requires |setItems| <= j < |c.params|
    ensures j < |Arguments(c)|
    ensures Arguments(c)[j] == Bind(c.processors, c.params[j].0, c.params[j].1)
  {
    var i := j - |setItems|;
    assert c.params[j] == whereItems[i] by {
      ConcatSecond(setItems, whereItems, j);
    }
    assert KeysOf(whereItems)[i] == c.params[j].0;
    UntouchedArgument(c, j);
  }

  /** Index `j` of `a + b`, for `j` past the end of `a`, is index `j - |a|` of `b`. */
  lemma ConcatSecond<T>(a: seq<T>, b: seq<T>, j: nat)
    requires |a| <= j < |a| + |b|
    ensures (a + b)[j] == b[j - |a|]
  {
  }

  /** Every compiled item gives an argument: the list is at least as long as the compiled parameters. */
  lemma ArgumentsCoverParams(c: Compiled)
    requires CanMaterialise(c)
    ensures |c.params| <= |Arguments(c)|
  {
    MaterialisedKeyOrder(c);
    assert |Arguments(c)| == |Materialised(c)| == |KeysOf(Materialised(c))|;
  }

  /** An untouched compiled item yields the argument at its own position. */
  lemma UntouchedArgument(c: Compiled, j: nat)
    requires CanMaterialise(c) && !c.isDdl
    requires j < |c.params|
    requires c.params[j].0 !in PrefetchKeys(c)
    ensures j < |Arguments(c)|
    ensures Arguments(c)[j] == Bind(c.processors, c.params[j].0, c.params[j].1)
  {
    UntouchedItemsStayInPlace(c, j);
  }

  // ---------------------------------------------------------------------------
  // Argument selection in the connection wrapper
  // ---------------------------------------------------------------------------

  /** `compiled_args or args`: an empty sequence is falsy in Python. */
  function SelectArgs(compiledArgs: seq<Value>, callerArgs: seq<Value>): (r: seq<Value>)
    ensures compiledArgs != [] ==> r == compiledArgs
    ensures compiledArgs == [] ==> r == callerArgs
  {
    if compiledArgs != [] then compiledArgs else callerArgs
  }

  /**
   * What `_execute`, `execute` and `cursor` hand to the driver: the compiled
   * text, and the compiled arguments in place of the caller's when there are
   * any.
   */
  function Forward(q: Query, callerArgs: seq<Value>): (r: (string, seq<Value>))
    requires Compilable(q)
    ensures r.0 == SqlText(q)
  {
    var out := CompileQuery(q, false);
    (out.sql, SelectArgs(out.args, callerArgs))
  }

  /** Raw SQL and DDL keep the caller's arguments. */
  lemma ForwardKeepsCallerArgs(q: Query, callerArgs: seq<Value>)
    requires Compilable(q)
    requires q.RawSql? || q.compiled.isDdl
    ensures Forward(q, callerArgs) == (SqlText(q), callerArgs)
  {
  }

  /**
   * For any other statement the caller's arguments are replaced exactly when
   * the materialised dictionary is non-empty.
   */
  lemma ForwardSubstitutes(c: Compiled, callerArgs: seq<Value>)
    requires CanMaterialise(c) && !c.isDdl
    ensures MaterialisedKeys(c) != [] ==> Forward(Statement(c), callerArgs).1 == Arguments(c)
    ensures MaterialisedKeys(c) == [] ==> Forward(Statement(c), callerArgs).1 == callerArgs
  {
    CompiledArguments(c);
  }
}
