/**
 * Context enrichment: the With* helpers bind an identifier under one of
 * golog's typed context keys, and FieldsFromContext turns the identifiers a
 * context carries into String fields, in a fixed order.
 */
module Context {
  import opened Wrappers
  import opened Fields

  /** golog's `type ContextKey string`. */
  type ContextKey = string

  const CorrelationIDKey: ContextKey := "correlation_id"
  const RequestIDKey: ContextKey := "request_id"
  const UserIDKey: ContextKey := "user_id"
  const TraceIDKey: ContextKey := "trace_id"
  const SpanIDKey: ContextKey := "span_id"

  /** The keys FieldsFromContext reads, in the order it reads them. */
  const KnownKeys: seq<ContextKey> := [CorrelationIDKey, RequestIDKey, UserIDKey, TraceIDKey, SpanIDKey]

  /**
   * A context key compares by dynamic type and value: a ContextKey never
   * equals a key of another type, such as a plain string with the same text.
   */
  datatype Key = Typed(name: ContextKey) | Untyped(name: string)

  /** A value stored in a context: a Go string, or a value of any other dynamic type. */
  datatype Stored = Str(s: string) | NonString(repr: string)

  /** A context as the chain of context.WithValue bindings above the background context. */
  datatype Context = Background | WithValue(parent: Context, key: Key, val: Stored)

  /** ctx.Value(key): the newest binding of the key, or nil. */
  function Value(ctx: Context, key: Key): Option<Stored>
  {
    match ctx
    case Background => None
    case WithValue(parent, k, v) => if k == key then Some(v) else Value(parent, key)
  }

  /**
   * The shape shared by the five With* helpers: an empty id leaves the
   * context as it was; any other id shadows the key's earlier binding and
   * leaves every other key's lookup alone.
   */
  function WithID(ctx: Context, key: ContextKey, id: string): (r: Context)
    ensures id == "" ==> r == ctx
    ensures id != "" ==> forall k :: Value(r, k) == if k == Typed(key) then Some(Str(id)) else Value(ctx, k)
  {
    if id == "" then ctx else WithValue(ctx, Typed(key), Str(id))
  }

  function WithCorrelationID(ctx: Context, id: string): (r: Context)
    ensures id == "" ==> r == ctx
    ensures id != "" ==> forall k :: Value(r, k) == if k == Typed(CorrelationIDKey) then Some(Str(id)) else Value(ctx, k)
  {
    WithID(ctx, CorrelationIDKey, id)
  }

  function WithRequestID(ctx: Context, id: string): (r: Context)
    ensures id == "" ==> r == ctx
    ensures id != "" ==> forall k :: Value(r, k) == if k == Typed(RequestIDKey) then Some(Str(id)) else Value(ctx, k)
  {
    WithID(ctx, RequestIDKey, id)
  }

  function WithUserID(ctx: Context, id: string): (r: Context)
    ensures id == "" ==> r == ctx
    ensures id != "" ==> forall k :: Value(r, k) == if k == Typed(UserIDKey) then Some(Str(id)) else Value(ctx, k)
  {
    WithID(ctx, UserIDKey, id)
  }

  function WithTraceID(ctx: Context, id: string): (r: Context)
    ensures id == "" ==> r == ctx
    ensures id != "" ==> forall k :: Value(r, k) == if k == Typed(TraceIDKey) then Some(Str(id)) else Value(ctx, k)
  {
    WithID(ctx, TraceIDKey, id)
  }

  function WithSpanID(ctx: Context, id: string): (r: Context)
    ensures id == "" ==> r == ctx
    ensures id != "" ==> forall k :: Value(r, k) == if k == Typed(SpanIDKey) then Some(Str(id)) else Value(ctx, k)
  {
    WithID(ctx, SpanIDKey, id)
  }

  /** `v, _ := ctx.Value(key).(string)`: the stored string, or "" when absent or not a string. */
  function StringValueOf(ctx: Context, key: ContextKey): string
  {
    match Value(ctx, Typed(key))
    case Some(Str(s)) => s
    case _ => ""
  }

  /** One of FieldsFromContext's conditional appends. */
  function FieldFor(ctx: Context, key: ContextKey): seq<Field>
  {
    var v := StringValueOf(ctx, key);
    if v != "" then [String(key, v)] else []
  }

  /** FieldsFromContext: nil for a nil context, else the five conditional appends in order. */
  function FieldsFromContext(ctx: Option<Context>): seq<Field>
  {
    if ctx.None? then []
    else
      var c := ctx.value;
      FieldFor(c, CorrelationIDKey) + FieldFor(c, RequestIDKey) + FieldFor(c, UserIDKey) +
      FieldFor(c, TraceIDKey) + FieldFor(c, SpanIDKey)
  }

  /** The position of a key in the order FieldsFromContext reads; 5 for any other key. */
  function Rank(key: ContextKey): nat
  {
    if key == CorrelationIDKey then 0
    else if key == RequestIDKey then 1
    else if key == UserIDKey then 2
    else if key == TraceIDKey then 3
    else if key == SpanIDKey then 4
    else 5
  }

  /** The conditional appends over any list of keys, in order. */
  function Collect(ctx: Context, keys: seq<ContextKey>): seq<Field>
  {
    if keys == [] then [] else Collect(ctx, keys[..|keys| - 1]) + FieldFor(ctx, keys[|keys| - 1])
  }

  /** Collect yields at most one field per key. */
  lemma {:induction false} CollectLength(ctx: Context, keys: seq<ContextKey>)
    ensures |Collect(ctx, keys)| <= |keys|
  {
    if keys != [] {
      CollectLength(ctx, keys[..|keys| - 1]);
    }
  }

  /**
   * Every field Collect yields is a String field holding a non-empty string
   * stored under its own key, which is one of the keys read.
   */
  lemma {:induction false} CollectSound(ctx: Context, keys: seq<ContextKey>)
    ensures forall i :: 0 <= i < |Collect(ctx, keys)| ==>
      var f := Collect(ctx, keys)[i];
      f.key in keys && StringValueOf(ctx, f.key) != "" && f == String(f.key, StringValueOf(ctx, f.key))
  {
    if keys != [] {
      var init := keys[..|keys| - 1];
      CollectSound(ctx, init);
      assert forall k :: k in init ==> k in keys;
    }
  }

  /** Every key read that holds a non-empty string gets its field. */
  lemma {:induction false} CollectComplete(ctx: Context, keys: seq<ContextKey>)
    ensures forall k :: k in keys && StringValueOf(ctx, k) != "" ==>
      String(k, StringValueOf(ctx, k)) in Collect(ctx, keys)
  {
    if keys != [] {
      var init := keys[..|keys| - 1];
      CollectComplete(ctx, init);
      assert forall k :: k in keys ==> k in init || k == keys[|keys| - 1];
    }
  }

  /** Collect keeps the order of the keys it reads. */
  lemma {:induction false} CollectOrdered(ctx: Context, keys: seq<ContextKey>)
    requires forall a, b :: 0 <= a < b < |keys| ==> Rank(keys[a]) < Rank(keys[b])
    ensures forall i, j :: 0 <= i < j < |Collect(ctx, keys)| ==>
      Rank(Collect(ctx, keys)[i].key) < Rank(Collect(ctx, keys)[j].key)
  {
    if keys != [] {
      var init := keys[..|keys| - 1];
      var last := keys[|keys| - 1];
      CollectOrdered(ctx, init);
      CollectSound(ctx, init);
      forall i | 0 <= i < |Collect(ctx, init)|
        ensures Rank(Collect(ctx, init)[i].key) < Rank(last)
      {
        var k := Collect(ctx, init)[i].key;
        var a :| 0 <= a < |init| && init[a] == k;
        assert keys[a] == k;
      }
    }
  }

  /** FieldsFromContext reads exactly the five known keys, in order. */
  lemma FieldsFromContextIsCollect(c: Context)
    ensures FieldsFromContext(Some(c)) == Collect(c, KnownKeys)
  {
    var k1 := [CorrelationIDKey];
    var k2 := k1 + [RequestIDKey];
    var k3 := k2 + [UserIDKey];
    var k4 := k3 + [TraceIDKey];
    assert KnownKeys == k4 + [SpanIDKey];
    CollectSnoc(c, [], CorrelationIDKey);
    assert [] + [CorrelationIDKey] == k1;
    assert Collect(c, k1) == FieldFor(c, CorrelationIDKey) by {
      assert Collect(c, []) + FieldFor(c, CorrelationIDKey) == FieldFor(c, CorrelationIDKey);
    }
    CollectSnoc(c, k1, RequestIDKey);
    CollectSnoc(c, k2, UserIDKey);
    CollectSnoc(c, k3, TraceIDKey);
    CollectSnoc(c, k4, SpanIDKey);
  }

  /** Collect over one more key appends that key's field. */
  lemma CollectSnoc(ctx: Context, keys: seq<ContextKey>, k: ContextKey)
    ensures Collect(ctx, keys + [k]) == Collect(ctx, keys) + FieldFor(ctx, k)
  {
    assert (keys + [k])[..|keys|] == keys;
  }

  /** A nil context yields no fields. */
  lemma FieldsFromNilContext()
    ensures FieldsFromContext(None) == []
  {
  }

  /** The known keys are listed in increasing rank. */
  lemma KnownKeysRanked()
    ensures forall a, b :: 0 <= a < b < |KnownKeys| ==> Rank(KnownKeys[a]) < Rank(KnownKeys[b])
  {
    assert |KnownKeys| == 5;
    assert Rank(KnownKeys[0]) == 0 && Rank(KnownKeys[1]) == 1 && Rank(KnownKeys[2]) == 2;
    assert Rank(KnownKeys[3]) == 3 && Rank(KnownKeys[4]) == 4;
  }

  /** FieldsFromContext: at most five fields, in the fixed key order, so with pairwise distinct keys. */
  lemma FieldsFromContextOrdered(c: Context)
    ensures |FieldsFromContext(Some(c))| <= 5
    ensures forall i, j :: 0 <= i < j < |FieldsFromContext(Some(c))| ==>
      Rank(FieldsFromContext(Some(c))[i].key) < Rank(FieldsFromContext(Some(c))[j].key)
  {
    FieldsFromContextIsCollect(c);
    CollectLength(c, KnownKeys);
    KnownKeysRanked();
    CollectOrdered(c, KnownKeys);
  }

  /**
   * FieldsFromContext: each field is a String field whose key is a known key
   * holding that non-empty string, and a known key's field appears iff the key
   * holds a non-empty string; absent keys, empty strings and non-string values
   * are skipped.
   */
  lemma FieldsFromContextSoundComplete(c: Context)
    ensures forall i :: 0 <= i < |FieldsFromContext(Some(c))| ==>
      var f := FieldsFromContext(Some(c))[i];
      f.key in KnownKeys && StringValueOf(c, f.key) != "" && f == String(f.key, StringValueOf(c, f.key))
    ensures forall k :: k in KnownKeys ==>
      (StringValueOf(c, k) != "" <==> String(k, StringValueOf(c, k)) in FieldsFromContext(Some(c)))
  {
    FieldsFromContextIsCollect(c);
    CollectSound(c, KnownKeys);
    CollectComplete(c, KnownKeys);
  }

  /** Round trip for any known key: a non-empty id bound under it comes back as its field. */
  lemma WithIDThenFields(ctx: Context, key: ContextKey, id: string)
    requires key in KnownKeys && id != ""
    ensures String(key, id) in FieldsFromContext(Some(WithID(ctx, key, id)))
  {
    var c := WithID(ctx, key, id);
    assert StringValueOf(c, key) == id;
    FieldsFromContextSoundComplete(c);
  }

  /** Round trip: a non-empty id set with a With* helper comes back as its field. */
  lemma WithThenFields(ctx: Context, id: string)
    requires id != ""
    ensures String(CorrelationIDKey, id) in FieldsFromContext(Some(WithCorrelationID(ctx, id)))
    ensures String(RequestIDKey, id) in FieldsFromContext(Some(WithRequestID(ctx, id)))
    ensures String(UserIDKey, id) in FieldsFromContext(Some(WithUserID(ctx, id)))
    ensures String(TraceIDKey, id) in FieldsFromContext(Some(WithTraceID(ctx, id)))
    ensures String(SpanIDKey, id) in FieldsFromContext(Some(WithSpanID(ctx, id)))
  {
    WithIDThenFields(ctx, CorrelationIDKey, id);
    WithIDThenFields(ctx, RequestIDKey, id);
    WithIDThenFields(ctx, UserIDKey, id);
    WithIDThenFields(ctx, TraceIDKey, id);
    WithIDThenFields(ctx, SpanIDKey, id);
  }

  /** A plain string key with a known key's text is a different key: FieldsFromContext ignores it. */
  lemma UntypedKeyIgnored(ctx: Context, name: string, v: string)
    ensures FieldsFromContext(Some(WithValue(ctx, Untyped(name), Str(v)))) == FieldsFromContext(Some(ctx))
  {
    var c := WithValue(ctx, Untyped(name), Str(v));
    forall k: ContextKey
      ensures FieldFor(c, k) == FieldFor(ctx, k)
    {
      assert Value(c, Typed(k)) == Value(ctx, Typed(k));
    }
  }
}
