/**
 * Key and value completion inside a Forge `mods.toml` file.
 *
 * The TOML syntax tree the completion reads is given here as a small
 * description of the caret's surroundings (`KeyContext`, `ValueContext`);
 * the schema is given as its lookups (`Schema`). Tables and arrays of tables
 * are those of TOML v1.0.0 (its "Table" and "Array of Tables" sections).
 */
module ModsTomlCompletion {
  import opened Wrappers

  // ---------------------------------------------------------------------------
  // Schema
  // ---------------------------------------------------------------------------

  /** A key the schema knows, with the presentable name of its declared type, if it declares one. */
  datatype SchemaEntry = SchemaEntry(key: string, typeName: Option<string>)

  /** The lookups of the mods.toml schema that key completion uses. */
  datatype Schema = Schema(
    rootEntries: seq<SchemaEntry>,            // `topLevelEntries`: keys of the document root
    tables: map<string, seq<SchemaEntry>>)    // `entriesForTable(name)`
  {
    /** An unknown table has no entries. */
    function EntriesForTable(name: string): seq<SchemaEntry>
    {
      if name in tables then tables[name] else []
    }
  }

  // ---------------------------------------------------------------------------
  // The syntax tree around the caret
  // ---------------------------------------------------------------------------

  /** What the `TomlKey` holding the caret is a child of. */
  datatype KeyParent =
    | KeyValueParent                              // a `TomlKeyValue`
    | TableHeaderParent                           // a `TomlTableHeader`
    | OtherKeyParent

  /** The nearest `TomlKeyValueOwner` above the key, with the key texts of its entries. */
  datatype Owner =
    | NoOwner                                                              // the key-value sits at the document root
    | TableOwner(headerFirstSegment: Option<string>, entryKeys: seq<string>)      // `[name]`
    | ArrayTableOwner(headerFirstSegment: Option<string>, entryKeys: seq<string>) // `[[name]]`
    | InlineTableOwner(entryKeys: seq<string>)                              // `{ ... }`, not a header owner

  datatype KeyContext = KeyContext(
    inKeySegment: bool,     // the caret's parent is a `TomlKeySegment`
    segmentInKey: bool,     // that segment's parent is a `TomlKey`
    keyParent: KeyParent,
    owner: Owner,
    fileKeys: seq<string>)  // key texts of the file's top-level key-values

  /** A completion item: the schema entry it stands for, the text it inserts and its type label. */
  datatype Lookup = Lookup(entry: SchemaEntry, lookupString: string, typeText: Option<string>)

  // ---------------------------------------------------------------------------
  // Key completion
  // ---------------------------------------------------------------------------

  /** The entries whose key is not among `existing`, in schema order. */
  function WithoutExisting(entries: seq<SchemaEntry>, existing: seq<string>): (r: seq<SchemaEntry>)
    ensures forall e :: e in r <==> e in entries && e.key !in existing
    ensures |r| <= |entries|
  {
    if entries == [] then []
    else
      var rest := WithoutExisting(entries[1..], existing);
      if entries[0].key in existing then rest else [entries[0]] + rest
  }

  /** The completion item of one entry: its key as lookup text, and its type as type text when it has one. */
  function MakeLookup(e: SchemaEntry): (l: Lookup)
    ensures l.entry == e && l.lookupString == e.key
    ensures l.typeText.Some? <==> e.typeName.Some?
    ensures l.typeText.Some? ==> l.typeText == e.typeName
  {
    var plain := Lookup(e, e.key, None);
    match e.typeName
    case Some(presentableName) => plain.(typeText := Some(presentableName))
    case None => plain
  }

  function Lookups(variants: seq<SchemaEntry>): (r: seq<Lookup>)
    ensures |r| == |variants|
    ensures forall i :: 0 <= i < |r| ==> r[i] == MakeLookup(variants[i])
  {
    seq(|variants|, i requires 0 <= i < |variants| => MakeLookup(variants[i]))
  }

  /**
   * `ModsTomlKeyCompletionProvider.addCompletions`: `None` where the provider
   * returns early, otherwise the items it adds. The table-header case is kept
   * although the key-value test before it has already returned for every key
   * whose parent is not a key-value. Even if reached, it would return at once:
   * it compares the key with the header's first key segment, and a key is
   * never one of its own segments.
   */
  function KeyCompletions(schema: Schema, ctx: KeyContext): Option<seq<Lookup>>
  {
    if !ctx.inKeySegment || !ctx.segmentInKey then None
    else if !ctx.keyParent.KeyValueParent? then None
    else
      var variants: Option<seq<SchemaEntry>> :=
        match ctx.keyParent
        case TableHeaderParent => None
        case KeyValueParent => (
          match ctx.owner
          case NoOwner => Some(WithoutExisting(schema.rootEntries, ctx.fileKeys))
          case TableOwner(header, entryKeys) =>
            if header.None? then None else Some(WithoutExisting(schema.EntriesForTable(header.value), entryKeys))
          case ArrayTableOwner(header, entryKeys) =>
            if header.None? then None else Some(WithoutExisting(schema.EntriesForTable(header.value), entryKeys))
          case InlineTableOwner(_) => None)
        case OtherKeyParent => None;
      match variants
      case None => None
      case Some(v) => Some(Lookups(v))
  }

  /** The keys already present where the caret is: the file's top-level keys at the root, the owner's entries otherwise. */
  function ExistingKeys(ctx: KeyContext): seq<string>
  {
    match ctx.owner
    case NoOwner => ctx.fileKeys
    case TableOwner(_, entryKeys) => entryKeys
    case ArrayTableOwner(_, entryKeys) => entryKeys
    case InlineTableOwner(entryKeys) => entryKeys
  }

  /** The schema entries offered where the caret is, or `None` where nothing is offered. */
  function CandidateEntries(schema: Schema, ctx: KeyContext): Option<seq<SchemaEntry>>
  {
    match ctx.owner
    case NoOwner => Some(schema.rootEntries)
    case TableOwner(header, _) => if header.Some? then Some(schema.EntriesForTable(header.value)) else None
    case ArrayTableOwner(header, _) => if header.Some? then Some(schema.EntriesForTable(header.value)) else None
    case InlineTableOwner(_) => None
  }

  /** Only a key inside a key-value, whose segment and key nodes are in place, ever gets completions. */
  lemma KeyCompletionsOnlyInKeyValues(schema: Schema, ctx: KeyContext)
    ensures KeyCompletions(schema, ctx).Some? ==>
      ctx.inKeySegment && ctx.segmentInKey && ctx.keyParent == KeyValueParent
  {
  }

  /** A key in a table header, first segment or not, in a table or an array of tables, is never completed. */
  lemma TableHeaderKeyNeverCompleted(schema: Schema, ctx: KeyContext)
    requires ctx.keyParent.TableHeaderParent?
    ensures KeyCompletions(schema, ctx) == None
  {
  }

  /** No candidate repeats a key already present in the enclosing table (or, at the root, in the file). */
  lemma KeyCandidatesAreNew(schema: Schema, ctx: KeyContext)
    ensures KeyCompletions(schema, ctx).Some? ==>
      forall l :: l in KeyCompletions(schema, ctx).value ==> l.lookupString !in ExistingKeys(ctx)
  {
  }

  /**
   * Where completions are offered, an item appears exactly for each schema entry
   * of the caret's table (root entries at the root, the entries of the header's
   * first segment in a header-owned table) whose key is not yet present.
   * An inline table, or a header without a key, offers nothing.
   */
  lemma KeyCandidatesExact(schema: Schema, ctx: KeyContext)
    requires ctx.inKeySegment && ctx.segmentInKey && ctx.keyParent == KeyValueParent
    ensures KeyCompletions(schema, ctx).Some? <==> CandidateEntries(schema, ctx).Some?
    ensures KeyCompletions(schema, ctx).Some? ==>
      (forall l :: l in KeyCompletions(schema, ctx).value ==> l == MakeLookup(l.entry)) &&
      (forall e :: MakeLookup(e) in KeyCompletions(schema, ctx).value <==>
         e in CandidateEntries(schema, ctx).value && e.key !in ExistingKeys(ctx))
  {
    var r := KeyCompletions(schema, ctx);
    if r.Some? {
      var v := WithoutExisting(CandidateEntries(schema, ctx).value, ExistingKeys(ctx));
      assert r.value == Lookups(v);
      forall e ensures MakeLookup(e) in r.value <==> e in v {
        if MakeLookup(e) in r.value {
          var i :| 0 <= i < |r.value| && r.value[i] == MakeLookup(e);
          assert MakeLookup(v[i]).entry == v[i];
        }
        if e in v {
          var i :| 0 <= i < |v| && v[i] == e;
          assert r.value[i] == MakeLookup(e);
        }
      }
    }
  }

  // ---------------------------------------------------------------------------
  // Value completion
  // ---------------------------------------------------------------------------

  /** A value already written in the slot: whether it is a literal and whether the caret lies inside it. */
  datatype ValueNode = ValueNode(isLiteral: bool, caretInside: bool)

  /** A `TomlKeyValue`: its key text and the value it has so far, if any. */
  datatype KeyValueNode = KeyValueNode(key: string, value: Option<ValueNode>)

  datatype ValueContext = ValueContext(
    hasParent: bool,                  // the caret element has a parent
    enclosing: Option<KeyValueNode>)  // the nearest key-value at or above that parent

  const NotInKeyValueMessage := "PsiElementPattern must not allow values outside of TomlKeyValues"

  /** The slot takes a completion: it is empty, or holds a literal the caret is inside of. */
  predicate SlotOpen(kv: KeyValueNode)
  {
    kv.value.None? || (kv.value.value.isLiteral && kv.value.value.caretInside)
  }

  /**
   * `getClosestKeyValueAncestor`: the enclosing key-value when the guard lets
   * completion through, `None` when it does not, and a thrown error when there
   * is no key-value above the caret at all.
   */
  function ClosestKeyValueAncestor(ctx: ValueContext): (r: Result<Option<KeyValueNode>>)
    ensures r.Failure? <==> ctx.hasParent && ctx.enclosing.None?
    ensures r.Failure? ==> r.error == NotInKeyValueMessage
    ensures r.Success? && r.value.Some? <==> ctx.hasParent && ctx.enclosing.Some? && SlotOpen(ctx.enclosing.value)
    ensures r.Success? && r.value.Some? ==> r.value == ctx.enclosing
  {
    if !ctx.hasParent then Success(None)
    else if ctx.enclosing.None? then Failure(NotInKeyValueMessage)
    else
      var keyValue := ctx.enclosing.value;
      var value := keyValue.value;
      if value == None || !(!value.value.isLiteral || !value.value.caretInside) then Success(Some(keyValue))
      else Success(None)
  }

  /** A value provider the contributor registers: a fixed set of known strings, or the two booleans. */
  datatype ValueProvider = KnownStringValues(values: seq<string>) | BooleanValues

  /** What a provider offers once the guard lets it through. */
  function Offered(p: ValueProvider): seq<string>
  {
    match p
    case KnownStringValues(values) => values
    case BooleanValues => ["true", "false"]
  }

  /** `addCompletions` of the known-values and boolean providers: the strings added, or the error thrown. */
  function ProvideValues(p: ValueProvider, ctx: ValueContext): Result<seq<string>>
  {
    match ClosestKeyValueAncestor(ctx)
    case Failure(e) => Failure(e)
    case Success(None) => Success([])
    case Success(Some(_)) => Success(Offered(p))
  }

  /** The caret is in a key-value whose slot is open. */
  predicate ValueCompletionAllowed(ctx: ValueContext)
  {
    ctx.hasParent && ctx.enclosing.Some? && SlotOpen(ctx.enclosing.value)
  }

  /** A provider errs exactly without a key-value, and otherwise offers all of its values or none. */
  lemma ProvideValuesGuarded(p: ValueProvider, ctx: ValueContext)
    ensures ProvideValues(p, ctx).Failure? <==> ctx.hasParent && ctx.enclosing.None?
    ensures ProvideValues(p, ctx).Success? ==>
      ProvideValues(p, ctx).value == if ValueCompletionAllowed(ctx) then Offered(p) else []
  {
  }

  /** The boolean provider offers exactly "true" and "false" when the guard passes, nothing when it fails. */
  lemma BooleanProviderOffersBooleans(ctx: ValueContext)
    requires ctx.hasParent && ctx.enclosing.Some?
    ensures ProvideValues(BooleanValues, ctx) ==
      Success(if SlotOpen(ctx.enclosing.value) then ["true", "false"] else [])
  {
  }

  /** After a completed non-literal value, or outside a literal, nothing is offered, whatever the provider. */
  lemma NoValueAfterCompletedValue(p: ValueProvider, ctx: ValueContext)
    requires ctx.hasParent && ctx.enclosing.Some? && ctx.enclosing.value.value.Some?
    requires !ctx.enclosing.value.value.value.isLiteral || !ctx.enclosing.value.value.value.caretInside
    ensures ProvideValues(p, ctx) == Success([])
  {
  }

  // ---------------------------------------------------------------------------
  // Registrations (the contributor's `init` block)
  // ---------------------------------------------------------------------------

  /** The value sets of `ForgeConstants`, whose contents are not part of this model. */
  datatype ForgeConstants = ForgeConstants(
    knownSubstitutions: seq<string>,
    displayTests: seq<string>,
    dependencyOrder: seq<string>,
    dependencySides: seq<string>)

  datatype Registration = KeyProvider | ValueRegistration(key: string, provider: ValueProvider)

  /** The providers `init` registers, in order. */
  function Registrations(c: ForgeConstants): seq<Registration>
  {
    [ KeyProvider,
      ValueRegistration("modLoader", KnownStringValues(["javafml"])),
      ValueRegistration("version", KnownStringValues(c.knownSubstitutions)),
      ValueRegistration("displayTest", KnownStringValues(c.displayTests)),
      ValueRegistration("ordering", KnownStringValues(c.dependencyOrder)),
      ValueRegistration("side", KnownStringValues(c.dependencySides)),
      ValueRegistration("showAsResourcePack", BooleanValues),
      ValueRegistration("logoBlur", BooleanValues),
      ValueRegistration("mandatory", BooleanValues),
      ValueRegistration("clientSideOnly", BooleanValues) ]
  }

  /** The value providers registered for the value of `key`, in registration order. */
  function ProvidersIn(regs: seq<Registration>, key: string): (r: seq<ValueProvider>)
    ensures |r| <= |regs|
    ensures forall p :: p in r <==> ValueRegistration(key, p) in regs
  {
    if regs == [] then []
    else
      var rest := ProvidersIn(regs[1..], key);
      match regs[0]
      case ValueRegistration(k, p) => if k == key then [p] + rest else rest
      case KeyProvider => rest
  }

  function ValueProvidersFor(key: string, c: ForgeConstants): seq<ValueProvider>
  {
    ProvidersIn(Registrations(c), key)
  }

  const BooleanKeys: set<string> := {"showAsResourcePack", "logoBlur", "mandatory", "clientSideOnly"}

  /** A key no value registration names has no value provider. */
  lemma ProvidersInNone(regs: seq<Registration>, key: string)
    requires forall j :: 0 <= j < |regs| && regs[j].ValueRegistration? ==> regs[j].key != key
    ensures ProvidersIn(regs, key) == []
  {
  }

  /** A key that exactly one value registration names is served by that registration's provider alone. */
  lemma {:induction false} ProvidersInUnique(regs: seq<Registration>, i: nat)
    requires i < |regs| && regs[i].ValueRegistration?
    requires forall j :: 0 <= j < |regs| && j != i && regs[j].ValueRegistration? ==> regs[j].key != regs[i].key
    ensures ProvidersIn(regs, regs[i].key) == [regs[i].provider]
  {
    if i == 0 {
      forall j | 0 <= j < |regs[1..]| && regs[1..][j].ValueRegistration?
        ensures regs[1..][j].key != regs[0].key
      {
        assert regs[1..][j] == regs[j + 1];
      }
      ProvidersInNone(regs[1..], regs[0].key);
    } else {
      forall j | 0 <= j < |regs[1..]| && j != i - 1 && regs[1..][j].ValueRegistration?
        ensures regs[1..][j].key != regs[1..][i - 1].key
      {
        assert regs[1..][j] == regs[j + 1];
      }
      ProvidersInUnique(regs[1..], i - 1);
      if regs[0].ValueRegistration? {
        assert regs[0].key != regs[i].key;
      }
    }
  }

  /** Every key `init` registers has exactly one value provider. */
  lemma RegisteredKeysHaveOneProvider(c: ForgeConstants, i: nat)
    requires 1 <= i < |Registrations(c)|
    ensures ValueProvidersFor(Registrations(c)[i].key, c) == [Registrations(c)[i].provider]
  {
    var regs := Registrations(c);
    forall j | 0 <= j < |regs| && j != i && regs[j].ValueRegistration?
      ensures regs[j].key != regs[i].key
    {
      assert 1 <= i <= 9 && 1 <= j <= 9;
      assert i == 1 || i == 2 || i == 3 || i == 4 || i == 5 || i == 6 || i == 7 || i == 8 || i == 9;
      assert j == 1 || j == 2 || j == 3 || j == 4 || j == 5 || j == 6 || j == 7 || j == 8 || j == 9;
    }
    ProvidersInUnique(regs, i);
  }

  /** A boolean key is served by the boolean provider alone, whatever the known-value sets are. */
  lemma BooleanKeysOfferBooleans(key: string, c: ForgeConstants)
    requires key in BooleanKeys
    ensures ValueProvidersFor(key, c) == [BooleanValues]
  {
    var i := if key == "showAsResourcePack" then 6 else if key == "logoBlur" then 7
      else if key == "mandatory" then 8 else 9;
    RegisteredKeysHaveOneProvider(c, i);
  }

  /** `modLoader` is served by one known-values provider, offering exactly "javafml". */
  lemma ModLoaderOffersJavaFml(c: ForgeConstants, ctx: ValueContext)
    requires ValueCompletionAllowed(ctx)
    ensures ValueProvidersFor("modLoader", c) == [KnownStringValues(["javafml"])]
    ensures ProvideValues(ValueProvidersFor("modLoader", c)[0], ctx) == Success(["javafml"])
  {
    RegisteredKeysHaveOneProvider(c, 1);
  }
}
