/**
 * Typed message definitions (`defineMessageType`): a recogniser `is`, a
 * constructor `create` with defaults, and namespacing of type names.
 * The random id generator and the clock become parameters.
 */
module MessageFactory {
  import opened Wrappers
  import opened Envelope

  /** A message type definition; `is` and `create` are the functions below. */
  datatype Definition = Definition(typ: string)

  /** The options of `create`; `id` and `direction` are optional, as is `target`. */
  datatype CreateOptions = CreateOptions(source: string, target: Option<string>, direction: Option<Direction>, id: Option<string>)

  function DefineMessageType(typ: string): (d: Definition)
    ensures d.typ == typ
  {
    Definition(typ)
  }

  /** `definition.is(m)`: `m.type` equals the definition's type and `m` has a `payload` property. */
  predicate Is<P>(def: Definition, m: Message<P>) {
    m.typ == def.typ && m.payload.HasKey()
  }

  /**
   * `definition.create(payload, options)`; `generatedId` stands for `generateId()`
   * and `now` for `Date.now()`.
   */
  function Create<P>(def: Definition, payload: P, options: CreateOptions, generatedId: string, now: int): (m: Message<P>)
    ensures m.typ == def.typ && m.payload == Present(payload) && m.source == options.source && m.timestamp == now
    ensures m.target == (if options.target.Some? then Present(options.target.value) else Undefined)
    ensures m.id == (if options.id.Some? && options.id.value != "" then options.id.value else generatedId)
    ensures m.direction == (if options.direction.Some? then options.direction.value else ParentToChild)
    ensures !IsErrorMessage(m) && !IsRequestMessage(m) && !IsResponseMessage(m)
  {
    Message(
      id := if options.id.Some? && options.id.value != "" then options.id.value else generatedId,
      typ := def.typ,
      timestamp := now,
      source := options.source,
      target := if options.target.Some? then Present(options.target.value) else Undefined,
      direction := options.direction.GetOr(ParentToChild),
      payload := Present(payload),
      code := Missing,
      message := Missing,
      correlationId := Missing,
      success := Missing,
      error := Missing)
  }

  /** Round trip: a definition recognises every message it creates. */
  lemma CreatedIsRecognised<P>(def: Definition, payload: P, options: CreateOptions, generatedId: string, now: int)
    ensures Is(def, Create(def, payload, options, generatedId, now))
  {
  }

  /** `options.id || generateId()`: an empty-string id is falsy and is replaced by a generated one. */
  lemma EmptyIdIsReplaced<P>(def: Definition, payload: P, options: CreateOptions, generatedId: string, now: int)
    requires options.id == Some("")
    ensures Create(def, payload, options, generatedId, now).id == generatedId
  {
  }

  /** Two definitions recognise a common message only when they share a type. */
  lemma RecognisersOfDistinctTypesAreDisjoint<P>(d1: Definition, d2: Definition, m: Message<P>)
    requires Is(d1, m) && Is(d2, m)
    ensures d1.typ == d2.typ
  {
  }

  /** `createMessageNamespace(ns)`. */
  datatype Namespace = Namespace(name: string)

  /** `createMessageNamespace(ns).defineMessageType(t)`: the definition of type `ns + "/" + t`. */
  function NamespacedDefinition(ns: Namespace, typ: string): (d: Definition)
    ensures d.typ == ns.name + "/" + typ
    ensures |d.typ| == |ns.name| + 1 + |typ| && d.typ[|ns.name|] == '/'
  {
    DefineMessageType(ns.name + "/" + typ)
  }

  /**
   * Namespacing keeps types apart as long as namespace names contain no `/`:
   * equal namespaced types come from equal namespaces and equal local types.
   */
  lemma {:induction false} NamespacesDoNotCollide(ns1: Namespace, t1: string, ns2: Namespace, t2: string)
    requires '/' !in ns1.name && '/' !in ns2.name
    requires NamespacedDefinition(ns1, t1) == NamespacedDefinition(ns2, t2)
    ensures ns1 == ns2 && t1 == t2
  {
    var s := ns1.name + "/" + t1;
    assert s == ns2.name + "/" + t2;
    var n1 := |ns1.name|;
    if n1 != |ns2.name| {
      assert false;
    }
    assert ns1.name == s[..n1] == ns2.name;
    assert t1 == s[n1 + 1..] == t2;
  }

  /** With a `/` inside a namespace name, two different namespaces can produce the same type. */
  lemma SlashInNamespaceCollides()
    ensures NamespacedDefinition(Namespace("a/b"), "c") == NamespacedDefinition(Namespace("a"), "b/c")
  {
  }
}
