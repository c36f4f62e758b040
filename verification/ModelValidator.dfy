/// The metadata-graph validator of the object-relational mapper.
///
/// The model is a read-only graph whose entity types, properties, keys and
/// foreign keys are referred to by integer ids (their positions in the
/// model's sequences). `ShowError` aborts the validation: every check that
/// can fail returns its error instead of throwing. `ShowWarning` appends to a
/// warnings log that is threaded through the checks.
module ModelValidation {
  import opened Options

  type EntityId = nat
  type PropertyId = nat
  type KeyId = nat
  type ForeignKeyId = nat

  /// An entity type: whether it is backed by a CLR type, its keys in the
  /// order `GetKeys()` yields them, its primary key if it has one, and the
  /// foreign keys `GetForeignKeys()` yields, in order.
  datatype EntityType = EntityType(
    hasClrType: bool,
    keys: seq<KeyId>,
    primaryKey: Option<KeyId>,
    foreignKeys: seq<ForeignKeyId>)

  datatype Property = Property(
    declaringEntityType: EntityId,
    isShadowProperty: bool,
    requiresValueGenerator: bool)

  datatype Key = Key(declaringEntityType: EntityId, properties: seq<PropertyId>)

  /// A foreign key: the entity type that declares it, its dependent
  /// properties, and the principal key they refer to position by position.
  datatype ForeignKey = ForeignKey(
    declaringEntityType: EntityId,
    properties: seq<PropertyId>,
    principalKey: KeyId)

  /// The model; the order of `foreignKeys` is the order in which the model
  /// enumerates the foreign keys that reference a key.
  datatype Model = Model(
    entityTypes: seq<EntityType>,
    properties: seq<Property>,
    keys: seq<Key>,
    foreignKeys: seq<ForeignKey>)

  /// The messages of `CoreStrings` used by the validator, carrying ids
  /// where the source formats names.
  datatype Message =
    | ShadowEntity(entityType: EntityId)
    | ShadowKey(keyProperties: seq<PropertyId>, entityType: EntityId, shadowProperties: seq<PropertyId>)
    | ReferencedShadowKey(keyProperties: seq<PropertyId>, entityType: EntityId, shadowProperties: seq<PropertyId>,
                          foreignKeyProperties: seq<PropertyId>, foreignKeyEntityType: EntityId)
    | EntityRequiresKey(entityType: EntityId)
    | CircularDependency(cycle: seq<ForeignKeyId>)
    | ForeignKeyValueGenerationOnAdd(property: PropertyId, entityType: EntityId, foreignKeyProperties: seq<PropertyId>)
    | PrincipalKeyNoValueGenerationOnAdd(property: PropertyId, entityType: EntityId)
    | MultipleRootPrincipals(firstForeignKeyEntityType: EntityId, firstForeignKeyProperties: seq<PropertyId>,
                             firstRootEntityType: EntityId, firstRoot: PropertyId,
                             secondForeignKeyProperties: seq<PropertyId>,
                             secondRootEntityType: EntityId, secondRoot: PropertyId)

  /// The outcome of `Validate`: the warnings shown, and the error that
  /// aborted the validation if one did.
  datatype Validation =
    | Passed(warnings: seq<Message>)
    | Failed(error: Message, warnings: seq<Message>)

  /// What `VerifyRootPrincipal` ends with: an error shown from inside it
  /// (which aborts), or its return value together with its `out errorMessage`.
  datatype Resolution =
    | Aborted(error: Message)
    | Returned(root: Option<PropertyId>, errorMessage: Option<Message>)

  // ---------------------------------------------------------------------
  // Well-formed graphs

  ghost predicate ValidProperties(m: Model, ps: seq<PropertyId>) {
    forall i :: 0 <= i < |ps| ==> ps[i] < |m.properties|
  }

  /// Every id in the graph refers to an element of the graph, the
  /// properties of a key or foreign key belong to the entity type declaring
  /// it, every entity type lists only the foreign keys it declares, and every
  /// foreign key has as many dependent properties as its principal key has
  /// properties.
  ghost predicate WellFormed(m: Model) {
    && (forall q :: 0 <= q < |m.properties| ==> m.properties[q].declaringEntityType < |m.entityTypes|)
    && (forall k :: 0 <= k < |m.keys| ==> m.keys[k].declaringEntityType < |m.entityTypes|)
    && (forall k, i :: 0 <= k < |m.keys| && 0 <= i < |m.keys[k].properties| ==>
          && m.keys[k].properties[i] < |m.properties|
          && m.properties[m.keys[k].properties[i]].declaringEntityType == m.keys[k].declaringEntityType)
    && (forall f :: 0 <= f < |m.foreignKeys| ==>
          && m.foreignKeys[f].declaringEntityType < |m.entityTypes|
          && m.foreignKeys[f].principalKey < |m.keys|
          && |m.foreignKeys[f].properties| == |m.keys[m.foreignKeys[f].principalKey].properties|)
    && (forall f, i :: 0 <= f < |m.foreignKeys| && 0 <= i < |m.foreignKeys[f].properties| ==>
          && m.foreignKeys[f].properties[i] < |m.properties|
          && m.properties[m.foreignKeys[f].properties[i]].declaringEntityType == m.foreignKeys[f].declaringEntityType)
    && (forall e, i :: 0 <= e < |m.entityTypes| && 0 <= i < |m.entityTypes[e].keys| ==> m.entityTypes[e].keys[i] < |m.keys|)
    && (forall e :: 0 <= e < |m.entityTypes| && m.entityTypes[e].primaryKey.Some? ==>
          m.entityTypes[e].primaryKey.value < |m.keys|)
    && (forall e, i :: 0 <= e < |m.entityTypes| && 0 <= i < |m.entityTypes[e].foreignKeys| ==>
          && m.entityTypes[e].foreignKeys[i] < |m.foreignKeys|
          && m.foreignKeys[m.entityTypes[e].foreignKeys[i]].declaringEntityType == e)
  }

  /// A well-formed model: the graph the validator walks.
  type WellFormedModel = m: Model | WellFormed(m) witness Model([], [], [], [])

  /// `foreignKey.PrincipalEntityType`: the entity type declaring the principal key.
  function PrincipalEntityType(m: WellFormedModel, f: ForeignKeyId): EntityId
    requires f < |m.foreignKeys|
  {
    m.keys[m.foreignKeys[f].principalKey].declaringEntityType
  }

  // ---------------------------------------------------------------------
  // FirstOrDefault queries

  /// `FirstOrDefault`: the position of the first element satisfying `p`.
  function FirstOrDefault<T>(s: seq<T>, p: T -> bool): (r: Option<nat>)
    ensures r.Some? ==> r.value < |s| && p(s[r.value]) && forall j :: 0 <= j < r.value ==> !p(s[j])
    ensures r.None? ==> forall j :: 0 <= j < |s| ==> !p(s[j])
  {
    if |s| == 0 then None
    else if p(s[0]) then Some(0)
    else match FirstOrDefault(s[1..], p)
      case None => None
      case Some(i) => Some(i + 1)
  }

  /// Fails, naming the first entity type in model order that has no CLR
  /// type, and passes when there is none.
  function EnsureNoShadowEntities(m: Model): (error: Option<Message>)
    ensures error.None? <==> forall e :: 0 <= e < |m.entityTypes| ==> m.entityTypes[e].hasClrType
    ensures error.Some? ==>
      && error.value.ShadowEntity?
      && error.value.entityType < |m.entityTypes|
      && !m.entityTypes[error.value.entityType].hasClrType
      && forall e :: 0 <= e < error.value.entityType ==> m.entityTypes[e].hasClrType
  {
    match FirstOrDefault(m.entityTypes, (et: EntityType) => !et.hasClrType)
    case None => None
    case Some(e) => Some(ShadowEntity(e))
  }

  /// Fails, naming the first entity type in model order that has no primary
  /// key, and passes when there is none.
  function EnsureNonNullPrimaryKeys(m: Model): (error: Option<Message>)
    ensures error.None? <==> forall e :: 0 <= e < |m.entityTypes| ==> m.entityTypes[e].primaryKey.Some?
    ensures error.Some? ==>
      && error.value.EntityRequiresKey?
      && error.value.entityType < |m.entityTypes|
      && m.entityTypes[error.value.entityType].primaryKey.None?
      && forall e :: 0 <= e < error.value.entityType ==> m.entityTypes[e].primaryKey.Some?
  {
    match FirstOrDefault(m.entityTypes, (et: EntityType) => et.primaryKey.None?)
    case None => None
    case Some(e) => Some(EntityRequiresKey(e))
  }

  // ---------------------------------------------------------------------
  // Shadow keys

  predicate HasShadowProperty(m: WellFormedModel, k: KeyId)
    requires k < |m.keys|
  {
    exists q :: q in m.keys[k].properties && m.properties[q].isShadowProperty
  }

  /// `properties.Where(p => p.IsShadowProperty)`.
  function ShadowProperties(m: Model, ps: seq<PropertyId>): (r: seq<PropertyId>)
    requires ValidProperties(m, ps)
    ensures |r| <= |ps|
    ensures forall q :: q in r <==> q in ps && m.properties[q].isShadowProperty
  {
    if ps == [] then []
    else (if m.properties[ps[0]].isShadowProperty then [ps[0]] else []) + ShadowProperties(m, ps[1..])
  }

  /// Filtering keeps the order of the properties: the shadow properties of
  /// `ps + [q]` are those of `ps`, followed by `q` when it is a shadow
  /// property.
  lemma {:induction false} ShadowPropertiesAppend(m: Model, ps: seq<PropertyId>, q: PropertyId)
    requires ValidProperties(m, ps) && q < |m.properties|
    ensures ShadowProperties(m, ps + [q]) ==
      ShadowProperties(m, ps) + (if m.properties[q].isShadowProperty then [q] else [])
    decreases |ps|
  {
    if ps != [] {
      assert (ps + [q])[1..] == ps[1..] + [q];
      ShadowPropertiesAppend(m, ps[1..], q);
    }
  }

  /// The warning shown for key `k` of entity type `e` when the key has a
  /// shadow property: it names the key's properties, the entity type and the
  /// shadow properties, and, when some foreign key references the key, the
  /// properties and declaring entity type of the first such foreign key.
  function ShadowKeyMessage(m: WellFormedModel, e: EntityId, k: KeyId): (msg: Message)
    requires e < |m.entityTypes| && k < |m.keys|
    ensures msg.ShadowKey? || msg.ReferencedShadowKey?
    ensures msg.keyProperties == m.keys[k].properties && msg.entityType == e
    ensures forall q :: q in msg.shadowProperties <==> q in m.keys[k].properties && m.properties[q].isShadowProperty
    ensures msg.shadowProperties == ShadowProperties(m, m.keys[k].properties)
    ensures msg.ReferencedShadowKey? <==> exists f :: 0 <= f < |m.foreignKeys| && m.foreignKeys[f].principalKey == k
    ensures msg.ReferencedShadowKey? ==>
      exists f :: 0 <= f < |m.foreignKeys| && m.foreignKeys[f].principalKey == k
        && (forall g :: 0 <= g < f ==> m.foreignKeys[g].principalKey != k)
        && msg.foreignKeyProperties == m.foreignKeys[f].properties
        && msg.foreignKeyEntityType == m.foreignKeys[f].declaringEntityType
  {
    var key := m.keys[k];
    var shadow := ShadowProperties(m, key.properties);
    match FirstOrDefault(m.foreignKeys, (fk: ForeignKey) => fk.principalKey == k)
    case Some(f) =>
      ReferencedShadowKey(key.properties, e, shadow, m.foreignKeys[f].properties, m.foreignKeys[f].declaringEntityType)
    case None =>
      ShadowKey(key.properties, e, shadow)
  }

  /// The (entity type, key) pairs with a shadow property among the first `n`
  /// keys of entity type `e`, in key order.
  function EntityShadowKeys(m: WellFormedModel, e: EntityId, n: nat): (r: seq<(EntityId, KeyId)>)
    requires e < |m.entityTypes| && n <= |m.entityTypes[e].keys|
    ensures ShadowKeyPairs(m, r)
  {
    if n == 0 then []
    else
      var k := m.entityTypes[e].keys[n - 1];
      EntityShadowKeys(m, e, n - 1) + (if HasShadowProperty(m, k) then [(e, k)] else [])
  }

  /// The (entity type, key) pairs with a shadow property among the first `n`
  /// entity types, in model order.
  function ShadowKeysUpTo(m: WellFormedModel, n: nat): (r: seq<(EntityId, KeyId)>)
    requires n <= |m.entityTypes|
    ensures ShadowKeyPairs(m, r)
  {
    if n == 0 then []
    else ShadowKeysUpTo(m, n - 1) + EntityShadowKeys(m, n - 1, |m.entityTypes[n - 1].keys|)
  }

  ghost predicate ShadowKeyPairs(m: WellFormedModel, s: seq<(EntityId, KeyId)>)
  {
    forall i :: 0 <= i < |s| ==>
      s[i].0 < |m.entityTypes| && s[i].1 < |m.keys| && HasShadowProperty(m, s[i].1)
  }

  function ShadowKeys(m: WellFormedModel): seq<(EntityId, KeyId)>
  {
    ShadowKeysUpTo(m, |m.entityTypes|)
  }

  /// One warning per pair, in order.
  function KeyWarnings(m: WellFormedModel, s: seq<(EntityId, KeyId)>): seq<Message>
    requires ShadowKeyPairs(m, s)
  {
    seq(|s|, i requires 0 <= i < |s| => ShadowKeyMessage(m, s[i].0, s[i].1))
  }

  function ShadowKeyWarnings(m: WellFormedModel): seq<Message>
  {
    KeyWarnings(m, ShadowKeys(m))
  }

  lemma KeyWarningsAppend(m: WellFormedModel, a: seq<(EntityId, KeyId)>, b: seq<(EntityId, KeyId)>)
    requires ShadowKeyPairs(m, a) && ShadowKeyPairs(m, b)
    ensures ShadowKeyPairs(m, a + b)
    ensures KeyWarnings(m, a + b) == KeyWarnings(m, a) + KeyWarnings(m, b)
  {
    assert ShadowKeyPairs(m, a + b) by {
      forall i | 0 <= i < |a + b|
        ensures (a + b)[i].0 < |m.entityTypes| && (a + b)[i].1 < |m.keys| && HasShadowProperty(m, (a + b)[i].1)
      {
        if i >= |a| { assert (a + b)[i] == b[i - |a|]; }
      }
    }
  }

  /// Taking key `j` of entity type `e` into account adds its warning, if any.
  lemma ShadowKeyStep(m: WellFormedModel, e: EntityId, j: nat)
    requires e < |m.entityTypes| && j < |m.entityTypes[e].keys|
    ensures var k := m.entityTypes[e].keys[j];
      KeyWarnings(m, ShadowKeysUpTo(m, e) + EntityShadowKeys(m, e, j + 1))
      == KeyWarnings(m, ShadowKeysUpTo(m, e) + EntityShadowKeys(m, e, j))
         + (if HasShadowProperty(m, k) then [ShadowKeyMessage(m, e, k)] else [])
  {
    var k := m.entityTypes[e].keys[j];
    var done := ShadowKeysUpTo(m, e) + EntityShadowKeys(m, e, j);
    var added: seq<(EntityId, KeyId)> := if HasShadowProperty(m, k) then [(e, k)] else [];
    assert ShadowKeyPairs(m, done) by { KeyWarningsAppend(m, ShadowKeysUpTo(m, e), EntityShadowKeys(m, e, j)); }
    assert ShadowKeysUpTo(m, e) + EntityShadowKeys(m, e, j + 1) == done + added;
    KeyWarningsAppend(m, done, added);
  }

  /// Walks every key of every entity type and shows one warning for each key
  /// with at least one shadow property; it never fails.
  method EnsureNoShadowKeys(m: WellFormedModel, log: seq<Message>) returns (log': seq<Message>)
    ensures log' == log + ShadowKeyWarnings(m)
  {
    log' := log;
    var e := 0;
    while e < |m.entityTypes|
      invariant e <= |m.entityTypes|
      invariant log' == log + KeyWarnings(m, ShadowKeysUpTo(m, e))
    {
      var keys := m.entityTypes[e].keys;
      assert ShadowKeysUpTo(m, e) + EntityShadowKeys(m, e, 0) == ShadowKeysUpTo(m, e);
      var j := 0;
      while j < |keys|
        invariant j <= |keys|
        invariant log' == log + KeyWarnings(m, ShadowKeysUpTo(m, e) + EntityShadowKeys(m, e, j))
      {
        var k := keys[j];
        ShadowKeyStep(m, e, j);
        if HasShadowProperty(m, k) {
          log' := log' + [ShadowKeyMessage(m, e, k)];
        }
        j := j + 1;
      }
      e := e + 1;
    }
  }

  lemma {:induction false} EntityShadowKeysMembership(m: WellFormedModel, e: EntityId, n: nat, e': EntityId, k: KeyId)
    requires e < |m.entityTypes| && n <= |m.entityTypes[e].keys|
    ensures (e', k) in EntityShadowKeys(m, e, n) <==>
      e' == e && k in m.entityTypes[e].keys[..n] && k < |m.keys| && HasShadowProperty(m, k)
  {
    if n > 0 {
      EntityShadowKeysMembership(m, e, n - 1, e', k);
      assert m.entityTypes[e].keys[..n] == m.entityTypes[e].keys[..n - 1] + [m.entityTypes[e].keys[n - 1]];
    }
  }

  lemma {:induction false} ShadowKeysUpToMembership(m: WellFormedModel, n: nat, e: EntityId, k: KeyId)
    requires n <= |m.entityTypes|
    ensures (e, k) in ShadowKeysUpTo(m, n) <==>
      e < n && k in m.entityTypes[e].keys && k < |m.keys| && HasShadowProperty(m, k)
  {
    if n > 0 {
      ShadowKeysUpToMembership(m, n - 1, e, k);
      EntityShadowKeysMembership(m, n - 1, |m.entityTypes[n - 1].keys|, e, k);
      assert m.entityTypes[n - 1].keys[..|m.entityTypes[n - 1].keys|] == m.entityTypes[n - 1].keys;
    }
  }

  /// A key of an entity type gets a shadow-key warning if and only if one of
  /// its properties is a shadow property, and the warning is that key's.
  lemma ShadowKeyWarnedIff(m: WellFormedModel, e: EntityId, k: KeyId)
    requires e < |m.entityTypes| && k in m.entityTypes[e].keys
    ensures k < |m.keys|
    ensures (e, k) in ShadowKeys(m) <==> HasShadowProperty(m, k)
    ensures (exists i :: 0 <= i < |ShadowKeys(m)| && ShadowKeys(m)[i] == (e, k)
               && ShadowKeyWarnings(m)[i] == ShadowKeyMessage(m, e, k)) <==> HasShadowProperty(m, k)
  {
    ShadowKeysUpToMembership(m, |m.entityTypes|, e, k);
    if HasShadowProperty(m, k) {
      var i :| 0 <= i < |ShadowKeys(m)| && ShadowKeys(m)[i] == (e, k);
      assert ShadowKeyWarnings(m)[i] == ShadowKeyMessage(m, e, k);
    }
  }

  /// Every shadow-key warning belongs to a key, listed by its entity type,
  /// that has a shadow property.
  lemma ShadowKeyWarningsSound(m: WellFormedModel, i: nat)
    requires i < |ShadowKeyWarnings(m)|
    ensures var (e, k) := ShadowKeys(m)[i];
      && e < |m.entityTypes| && k in m.entityTypes[e].keys && HasShadowProperty(m, k)
      && ShadowKeyWarnings(m)[i] == ShadowKeyMessage(m, e, k)
  {
    var (e, k) := ShadowKeys(m)[i];
    ShadowKeysUpToMembership(m, |m.entityTypes|, e, k);
  }

  // ---------------------------------------------------------------------
  // The graph of foreign-key chains

  predicate Generated(m: Model, q: PropertyId)
    requires q < |m.properties|
  {
    m.properties[q].requiresValueGenerator
  }

  /// The principal property that the dependent property at position `i` of
  /// foreign key `f` refers to.
  function PrincipalProperty(m: WellFormedModel, f: ForeignKeyId, i: nat): PropertyId
    requires f < |m.foreignKeys| && i < |m.foreignKeys[f].properties|
  {
    m.keys[m.foreignKeys[f].principalKey].properties[i]
  }

  /// `q` is the dependent property at position `i` of a foreign key `f` that
  /// the entity type of `q` declares: the search at `q` follows `f` there.
  ghost predicate Edge(m: WellFormedModel, q: PropertyId, f: ForeignKeyId, i: nat)
    requires q < |m.properties|
  {
    && f in m.entityTypes[m.properties[q].declaringEntityType].foreignKeys
    && i < |m.foreignKeys[f].properties| && m.foreignKeys[f].properties[i] == q
  }

  /// `q` is a dependent property of some foreign key of its entity type.
  ghost predicate Dependent(m: WellFormedModel, q: PropertyId)
    requires q < |m.properties|
  {
    exists f: ForeignKeyId, i: nat :: Edge(m, q, f, i)
  }

  /// `steps` leads from `q` to `r`: every step is a foreign key and a
  /// position holding the current property, and moves to the principal
  /// property at that position.
  ghost predicate Chain(m: WellFormedModel, q: PropertyId, steps: seq<(ForeignKeyId, nat)>, r: PropertyId)
    requires q < |m.properties|
    decreases |steps|
  {
    if steps == [] then r == q
    else
      && Edge(m, q, steps[0].0, steps[0].1)
      && Chain(m, PrincipalProperty(m, steps[0].0, steps[0].1), steps[1..], r)
  }

  ghost predicate Reaches(m: WellFormedModel, q: PropertyId, r: PropertyId)
    requires q < |m.properties|
  {
    exists steps :: Chain(m, q, steps, r)
  }

  /// Some value-generating property is reached from `q`.
  ghost predicate Resolves(m: WellFormedModel, q: PropertyId)
    requires q < |m.properties|
  {
    exists r: PropertyId :: r < |m.properties| && Generated(m, r) && Reaches(m, q, r)
  }

  lemma ReachesSelf(m: WellFormedModel, q: PropertyId)
    requires q < |m.properties|
    ensures Reaches(m, q, q)
  {
    assert Chain(m, q, [], q);
  }

  /// A chain from the principal property of an edge out of `q` extends to a
  /// chain from `q`.
  lemma ReachesStep(m: WellFormedModel, q: PropertyId, f: ForeignKeyId, i: nat, r: PropertyId)
    requires q < |m.properties| && Edge(m, q, f, i)
    requires Reaches(m, PrincipalProperty(m, f, i), r)
    ensures Reaches(m, q, r)
  {
    var steps :| Chain(m, PrincipalProperty(m, f, i), steps, r);
    assert ([(f, i)] + steps)[1..] == steps;
    assert Chain(m, q, [(f, i)] + steps, r);
  }

  ghost predicate Distinct(s: seq<ForeignKeyId>) {
    forall i, j :: 0 <= i < j < |s| ==> s[i] != s[j]
  }

  /// The foreign keys `s` chain: each one's principal entity type declares the next.
  ghost predicate Chained(m: WellFormedModel, s: seq<ForeignKeyId>)
  {
    && (forall i :: 0 <= i < |s| ==> s[i] < |m.foreignKeys|)
    && (forall i :: 0 < i < |s| ==> PrincipalEntityType(m, s[i - 1]) == m.foreignKeys[s[i]].declaringEntityType)
  }

  /// The visited foreign keys are a repeat-free chain that leads to `e`.
  ghost predicate IsPath(m: WellFormedModel, visited: seq<ForeignKeyId>, e: EntityId)
  {
    && Distinct(visited)
    && Chained(m, visited)
    && (|visited| > 0 ==> PrincipalEntityType(m, visited[|visited| - 1]) == e)
  }

  /// `cycle` is a repeat-free chain of foreign keys whose last principal
  /// entity type declares the first foreign key.
  ghost predicate IsCycle(m: WellFormedModel, cycle: seq<ForeignKeyId>)
  {
    && |cycle| > 0
    && Distinct(cycle)
    && Chained(m, cycle)
    && PrincipalEntityType(m, cycle[|cycle| - 1]) == m.foreignKeys[cycle[0]].declaringEntityType
  }

  /// No chain of foreign keys leads back to the entity type it started from.
  ghost predicate Acyclic(m: WellFormedModel)
  {
    forall c :: !IsCycle(m, c)
  }

  // ---------------------------------------------------------------------
  // What the search may return and show

  /// `r` may stand as the root principal of `q`: a value-generating property
  /// reached from `q`, and `q` itself when `q` requires a value generator.
  ghost predicate ValidRoot(m: WellFormedModel, q: PropertyId, r: PropertyId)
  {
    && q < |m.properties| && r < |m.properties|
    && Generated(m, r) && Reaches(m, q, r)
    && (Generated(m, q) ==> r == q)
  }

  ghost predicate MemoValid(m: WellFormedModel, verified: map<PropertyId, PropertyId>)
  {
    forall q {:trigger ValidRoot(m, q, verified[q])} :: q in verified ==> ValidRoot(m, q, verified[q])
  }

  ghost predicate Extends(verified: map<PropertyId, PropertyId>, verified': map<PropertyId, PropertyId>) {
    forall q :: q in verified ==> q in verified' && verified'[q] == verified[q]
  }

  /// A multiple-root warning names two distinct value-generating roots.
  ghost predicate IsAmbiguityWarning(m: Model, w: Message) {
    && w.MultipleRootPrincipals?
    && w.firstRoot != w.secondRoot
    && w.firstRoot < |m.properties| && m.properties[w.firstRoot].requiresValueGenerator
    && w.secondRoot < |m.properties| && m.properties[w.secondRoot].requiresValueGenerator
  }

  /// `log'` is `log` followed by multiple-root warnings only.
  ghost predicate LogExtends(m: Model, log: seq<Message>, log': seq<Message>) {
    && |log| <= |log'| && log'[..|log|] == log
    && AllWarnings(m, log'[|log|..])
  }

  /// Every message of `ws` is an ambiguity warning.
  ghost predicate AllWarnings(m: Model, ws: seq<Message>) {
    forall w :: w in ws ==> IsAmbiguityWarning(m, w)
  }

  lemma LogExtendsTrans(m: Model, log: seq<Message>, log': seq<Message>, log'': seq<Message>)
    requires LogExtends(m, log, log') && LogExtends(m, log', log'')
    ensures LogExtends(m, log, log'')
  {
    assert log''[..|log|] == log''[..|log'|][..|log|];
  }

  lemma LogExtendsWarning(m: Model, log: seq<Message>, log': seq<Message>, w: Message)
    requires LogExtends(m, log, log') && IsAmbiguityWarning(m, w)
    ensures LogExtends(m, log, log' + [w])
  {
    assert (log' + [w])[..|log|] == log'[..|log|];
  }

  /// An error the search from `keyProperty` shows. Either a property `q`
  /// reached from it requires a value generator while one of its own foreign
  /// keys leads on to a value-generating property, or a property `q` reached
  /// from it neither requires a value generator nor is a dependent property,
  /// so that nothing supplies its value.
  ghost predicate ChainError(m: WellFormedModel, keyProperty: PropertyId, msg: Message)
    requires keyProperty < |m.properties|
  {
    match msg
    case ForeignKeyValueGenerationOnAdd(q, e, props) =>
      && q < |m.properties| && Reaches(m, keyProperty, q) && Generated(m, q)
      && e == m.properties[q].declaringEntityType
      && exists f: ForeignKeyId, i: nat :: Edge(m, q, f, i) && props == m.foreignKeys[f].properties && Resolves(m, PrincipalProperty(m, f, i))
    case PrincipalKeyNoValueGenerationOnAdd(q, e) =>
      && q < |m.properties| && Reaches(m, keyProperty, q) && !Generated(m, q) && !Dependent(m, q)
      && e == m.properties[q].declaringEntityType
    case _ => false
  }

  ghost predicate CycleMessage(m: WellFormedModel, msg: Message)
  {
    msg.CircularDependency? && IsCycle(m, msg.cycle)
  }

  /// An error of the search from the principal property of an edge out of
  /// `q` is an error of the search from `q`.
  lemma ChainErrorStep(m: WellFormedModel, q: PropertyId, f: ForeignKeyId, i: nat, msg: Message)
    requires q < |m.properties| && Edge(m, q, f, i)
    requires ChainError(m, PrincipalProperty(m, f, i), msg)
    ensures ChainError(m, q, msg)
  {
    ReachesStep(m, q, f, i, msg.property);
  }

  /// What a search from `keyProperty` may end with: an error of the chain
  /// from it, or a root valid for it, or no root together with the cycle
  /// message that explains it.
  ghost predicate ResolutionSound(m: WellFormedModel, keyProperty: PropertyId, r: Resolution)
    requires keyProperty < |m.properties|
  {
    match r
    case Aborted(error) => ChainError(m, keyProperty, error)
    case Returned(root, errorMessage) =>
      && (root.Some? ==> ValidRoot(m, keyProperty, root.value))
      && (root.None? ==> errorMessage.Some?)
      && (errorMessage.Some? ==> CycleMessage(m, errorMessage.value))
  }

  ghost predicate DistinctRoots(rp: seq<(PropertyId, ForeignKeyId)>) {
    forall i, j :: 0 <= i < j < |rp| ==> rp[i].0 != rp[j].0
  }

  /// `rootPrincipals` of the search at `keyProperty`: distinct roots valid
  /// for it, each recorded under a foreign key of `e` that has `keyProperty`
  /// as a dependent property.
  ghost predicate Candidates(m: WellFormedModel, keyProperty: PropertyId, e: EntityId, rp: seq<(PropertyId, ForeignKeyId)>)
    requires e < |m.entityTypes|
  {
    && DistinctRoots(rp)
    && forall i :: 0 <= i < |rp| ==>
         && rp[i].1 in m.entityTypes[e].foreignKeys
         && keyProperty in m.foreignKeys[rp[i].1].properties
         && ValidRoot(m, keyProperty, rp[i].0)
  }

  /// `rootPrincipals[root] = fk` on a dictionary kept as (key, value) pairs
  /// in enumeration order: a key already present keeps its position and
  /// takes the new value, a new key goes last.
  function Assign(rp: seq<(PropertyId, ForeignKeyId)>, root: PropertyId, fk: ForeignKeyId): (r: seq<(PropertyId, ForeignKeyId)>)
    requires DistinctRoots(rp)
    ensures DistinctRoots(r)
    ensures (exists i :: 0 <= i < |rp| && rp[i].0 == root) ==>
      |r| == |rp| && forall i :: 0 <= i < |rp| ==> r[i] == (if rp[i].0 == root then (root, fk) else rp[i])
    ensures (forall i :: 0 <= i < |rp| ==> rp[i].0 != root) ==> r == rp + [(root, fk)]
  {
    match FirstOrDefault(rp, (p: (PropertyId, ForeignKeyId)) => p.0 == root)
    case Some(k) => rp[k := (root, fk)]
    case None => rp + [(root, fk)]
  }

  /// Recording a root valid for `keyProperty`, under a foreign key of `e`
  /// that has `keyProperty` as a dependent property, keeps the candidates
  /// valid.
  lemma AssignKeepsCandidates(
    m: WellFormedModel, keyProperty: PropertyId, e: EntityId, rp: seq<(PropertyId, ForeignKeyId)>, root: PropertyId, fk: ForeignKeyId)
    requires e < |m.entityTypes| && Candidates(m, keyProperty, e, rp)
    requires fk in m.entityTypes[e].foreignKeys && keyProperty in m.foreignKeys[fk].properties
    requires ValidRoot(m, keyProperty, root)
    ensures Candidates(m, keyProperty, e, Assign(rp, root, fk))
  {
    var r := Assign(rp, root, fk);
    if exists i :: 0 <= i < |rp| && rp[i].0 == root {
      assert forall i :: 0 <= i < |r| ==> r[i] == (if rp[i].0 == root then (root, fk) else rp[i]);
    } else {
      assert forall i :: 0 <= i < |r| ==> r[i] == (if i < |rp| then rp[i] else (root, fk));
    }
  }

  /// The multiple-root warning for the first two entries of `rootPrincipals`:
  /// it names the first entry's foreign key by its declaring entity type and
  /// properties, the first root by its entity type, the second entry's
  /// foreign key by its properties, and the second root by its entity type.
  function MultipleRootsWarning(m: Model, first: (PropertyId, ForeignKeyId), second: (PropertyId, ForeignKeyId)): (w: Message)
    requires first.0 < |m.properties| && second.0 < |m.properties|
    requires first.1 < |m.foreignKeys| && second.1 < |m.foreignKeys|
    ensures w.MultipleRootPrincipals?
    ensures w.firstForeignKeyEntityType == m.foreignKeys[first.1].declaringEntityType
    ensures w.firstForeignKeyProperties == m.foreignKeys[first.1].properties
    ensures w.firstRoot == first.0 && w.firstRootEntityType == m.properties[first.0].declaringEntityType
    ensures w.secondForeignKeyProperties == m.foreignKeys[second.1].properties
    ensures w.secondRoot == second.0 && w.secondRootEntityType == m.properties[second.0].declaringEntityType
  {
    var firstFk := m.foreignKeys[first.1];
    MultipleRootPrincipals(
      firstFk.declaringEntityType, firstFk.properties,
      m.properties[first.0].declaringEntityType, first.0,
      m.foreignKeys[second.1].properties,
      m.properties[second.0].declaringEntityType, second.0)
  }

  lemma {:induction false} DistinctLength(s: seq<ForeignKeyId>, n: nat)
    requires Distinct(s) && forall i :: 0 <= i < |s| ==> s[i] < n
    ensures |s| <= n
    decreases n
  {
    if |s| > 0 {
      assert s[0] < n;
      if i :| 0 <= i < |s| && s[i] == n - 1 {
        var rest := s[..i] + s[i + 1..];
        assert forall a :: 0 <= a < |rest| ==> rest[a] == (if a < i then s[a] else s[a + 1]);
        DistinctLength(rest, n - 1);
      } else {
        DistinctLength(s, n - 1);
      }
    }
  }

  /// The search never visits more foreign keys than the model has: the cycle
  /// check keeps the path free of repeats.
  lemma PathBound(m: WellFormedModel, visited: seq<ForeignKeyId>, e: EntityId)
    requires IsPath(m, visited, e)
    ensures |visited| <= |m.foreignKeys|
  {
    DistinctLength(visited, |m.foreignKeys|);
  }

  lemma ExtendPath(m: WellFormedModel, visited: seq<ForeignKeyId>, e: EntityId, f: ForeignKeyId)
    requires e < |m.entityTypes| && IsPath(m, visited, e)
    requires f in m.entityTypes[e].foreignKeys && f !in visited
    ensures IsPath(m, visited + [f], PrincipalEntityType(m, f))
    ensures |visited| < |m.foreignKeys|
  {
    var path := visited + [f];
    assert forall i :: 0 <= i < |visited| ==> path[i] == visited[i];
    PathBound(m, path, PrincipalEntityType(m, f));
  }

  /// `visitedForeignKeys.IndexOf(foreignKey)`.
  function CycleStart(visited: seq<ForeignKeyId>, f: ForeignKeyId): (start: nat)
    requires f in visited
    ensures start < |visited| && visited[start] == f && forall j :: 0 <= j < start ==> visited[j] != f
  {
    FirstOrDefault(visited, (g: ForeignKeyId) => g == f).value
  }

  /// The suffix of the path from a foreign key of `e` back to the end is a cycle.
  lemma CycleOfPath(m: WellFormedModel, visited: seq<ForeignKeyId>, e: EntityId, start: nat)
    requires e < |m.entityTypes| && IsPath(m, visited, e)
    requires start < |visited| && visited[start] in m.entityTypes[e].foreignKeys
    ensures IsCycle(m, visited[start..])
  {
    var c := visited[start..];
    assert forall i :: 0 <= i < |c| ==> c[i] == visited[start + i];
  }

  // ---------------------------------------------------------------------
  // The root-principal search, as functions of the state it starts from

  /// The state of the scan in `VerifyRootPrincipal`: the memo table, the
  /// warnings shown, the candidate roots in insertion order and the last
  /// error message.
  datatype Progress = Progress(
    verified: map<PropertyId, PropertyId>,
    log: seq<Message>,
    rootPrincipals: seq<(PropertyId, ForeignKeyId)>,
    errorMessage: Option<Message>)

  /// The scan's state after some of its steps, and the error shown by the
  /// last of them if that one aborted.
  datatype Step = Step(abort: Option<Message>, progress: Progress)

  /// A search's outcome together with the memo table and warnings after it.
  datatype Search = Search(r: Resolution, verified: map<PropertyId, PropertyId>, log: seq<Message>)

  ghost predicate ProgressValid(m: WellFormedModel, keyProperty: PropertyId, e: EntityId, p: Progress)
    requires e < |m.entityTypes|
  {
    && MemoValid(m, p.verified)
    && Candidates(m, keyProperty, e, p.rootPrincipals)
    && (p.errorMessage.Some? ==> CycleMessage(m, p.errorMessage.value))
  }

  /// `step` keeps every memo entry of `p` and adds valid ones, adds only
  /// multiple-root warnings, and either aborts with an error of the chain
  /// from `keyProperty` or leaves a valid scan state.
  ghost predicate Advances(m: WellFormedModel, keyProperty: PropertyId, e: EntityId, p: Progress, step: Step)
    requires keyProperty < |m.properties| && e < |m.entityTypes|
  {
    && Extends(p.verified, step.progress.verified) && MemoValid(m, step.progress.verified)
    && LogExtends(m, p.log, step.progress.log)
    && (step.abort.Some? ==> ChainError(m, keyProperty, step.abort.value))
    && (step.abort.None? ==> ProgressValid(m, keyProperty, e, step.progress))
  }

  /// No position at or after position `i` of the `a`-th foreign key of `e`
  /// in the scan holds `keyProperty`.
  ghost predicate NoPositionFrom(m: WellFormedModel, keyProperty: PropertyId, e: EntityId, a: nat, i: nat)
    requires e < |m.entityTypes|
  {
    forall b: nat, j: nat ::
      a <= b < |m.entityTypes[e].foreignKeys| && (b == a ==> i <= j)
      && j < |m.foreignKeys[m.entityTypes[e].foreignKeys[b]].properties| ==>
      m.foreignKeys[m.entityTypes[e].foreignKeys[b]].properties[j] != keyProperty
  }

  lemma NoPositionNotDependent(m: WellFormedModel, keyProperty: PropertyId)
    requires keyProperty < |m.properties|
    requires NoPositionFrom(m, keyProperty, m.properties[keyProperty].declaringEntityType, 0, 0)
    ensures !Dependent(m, keyProperty)
  {
    var e := m.properties[keyProperty].declaringEntityType;
    forall f: ForeignKeyId, i: nat ensures !Edge(m, keyProperty, f, i) {
      if f in m.entityTypes[e].foreignKeys {
        var b :| 0 <= b < |m.entityTypes[e].foreignKeys| && m.entityTypes[e].foreignKeys[b] == f;
        assert i < |m.foreignKeys[f].properties| ==> m.foreignKeys[m.entityTypes[e].foreignKeys[b]].properties[i] != keyProperty;
      }
    }
  }

  /// `VerifyRootPrincipal` (lines 97-186): a memoised property returns its
  /// stored root; otherwise the scan over the foreign keys of `entityType`
  /// collects candidate roots, and `Decide` settles the outcome.
  ghost function Resolve(
    m: WellFormedModel, keyProperty: PropertyId, entityType: EntityId,
    verified: map<PropertyId, PropertyId>, visited: seq<ForeignKeyId>, log: seq<Message>): (s: Search)
    requires keyProperty < |m.properties|
    requires entityType == m.properties[keyProperty].declaringEntityType
    requires MemoValid(m, verified) && IsPath(m, visited, entityType)
    ensures Extends(verified, s.verified) && MemoValid(m, s.verified) && LogExtends(m, log, s.log)
    ensures ResolutionSound(m, keyProperty, s.r)
    decreases |m.foreignKeys| - |visited|, 2, 0, 0, 0
  {
    if keyProperty in verified then
      Search(Returned(Some(verified[keyProperty]), None), verified, log)
    else
      var p := Progress(verified, log, [], None);
      Decide(m, keyProperty, p, ScanFrom(m, keyProperty, entityType, visited, 0, 0, p))
  }

  /// Lines 150-185, after the scan `step` that started from `p`: no
  /// candidate returns no root if the scan met a cycle, else `keyProperty`
  /// itself when it requires a value generator, else shows that no value is
  /// generated; more than one candidate shows a warning and returns the
  /// first; exactly one is memoised and returned.
  ghost function Decide(m: WellFormedModel, keyProperty: PropertyId, p: Progress, step: Step): (s: Search)
    requires keyProperty < |m.properties|
    requires keyProperty !in p.verified && p.rootPrincipals == [] && p.errorMessage.None?
    requires Advances(m, keyProperty, m.properties[keyProperty].declaringEntityType, p, step)
    requires step.abort.None? && step.progress.rootPrincipals == [] && step.progress.errorMessage.None? ==>
      NoPositionFrom(m, keyProperty, m.properties[keyProperty].declaringEntityType, 0, 0)
    ensures Extends(p.verified, s.verified) && MemoValid(m, s.verified) && LogExtends(m, p.log, s.log)
    ensures ResolutionSound(m, keyProperty, s.r)
  {
    var q := step.progress;
    var rp := q.rootPrincipals;
    if step.abort.Some? then Search(Aborted(step.abort.value), q.verified, q.log)
    else if |rp| == 0 then
      if q.errorMessage.Some? then Search(Returned(None, q.errorMessage), q.verified, q.log)
      else if !Generated(m, keyProperty) then
        NoPositionNotDependent(m, keyProperty);
        ReachesSelf(m, keyProperty);
        Search(Aborted(PrincipalKeyNoValueGenerationOnAdd(keyProperty, m.properties[keyProperty].declaringEntityType)),
               q.verified, q.log)
      else
        ReachesSelf(m, keyProperty);
        Search(Returned(Some(keyProperty), None), q.verified, q.log)
    else if |rp| > 1 then
      var warning := MultipleRootsWarning(m, rp[0], rp[1]);
      LogExtendsWarning(m, p.log, q.log, warning);
      Search(Returned(Some(rp[0].0), q.errorMessage), q.verified, q.log + [warning])
    else
      Search(Returned(Some(rp[0].0), None), q.verified[keyProperty := rp[0].0], q.log)
  }

  /// The scan of lines 112-148 from position `i` of the `a`-th foreign key
  /// of `entityType` on: every position holding `keyProperty` is followed in
  /// turn, and the scan stops at the first error shown.
  ghost function ScanFrom(
    m: WellFormedModel, keyProperty: PropertyId, entityType: EntityId, visited: seq<ForeignKeyId>, a: nat, i: nat, p: Progress): (step: Step)
    requires keyProperty < |m.properties|
    requires entityType == m.properties[keyProperty].declaringEntityType
    requires IsPath(m, visited, entityType) && ProgressValid(m, keyProperty, entityType, p)
    requires a <= |m.entityTypes[entityType].foreignKeys|
    requires a < |m.entityTypes[entityType].foreignKeys| ==>
      i <= |m.foreignKeys[m.entityTypes[entityType].foreignKeys[a]].properties|
    ensures Advances(m, keyProperty, entityType, p, step)
    // a scan that records neither a root nor an error met no position holding `keyProperty`
    ensures step.abort.None? && step.progress.rootPrincipals == [] && step.progress.errorMessage.None? ==>
      && p.rootPrincipals == [] && p.errorMessage.None?
      && NoPositionFrom(m, keyProperty, entityType, a, i)
    decreases |m.foreignKeys| - |visited|, 1, |m.entityTypes[entityType].foreignKeys| - a,
      if a < |m.entityTypes[entityType].foreignKeys|
      then |m.foreignKeys[m.entityTypes[entityType].foreignKeys[a]].properties| - i else 0
  {
    var fks := m.entityTypes[entityType].foreignKeys;
    if a == |fks| then Step(None, p)
    else if i == |m.foreignKeys[fks[a]].properties| then ScanFrom(m, keyProperty, entityType, visited, a + 1, 0, p)
    else if m.foreignKeys[fks[a]].properties[i] != keyProperty then
      ScanFrom(m, keyProperty, entityType, visited, a, i + 1, p)
    else
      var step := Follow(m, keyProperty, entityType, fks[a], i, visited, p);
      if step.abort.Some? then step
      else
        var rest := ScanFrom(m, keyProperty, entityType, visited, a, i + 1, step.progress);
        LogExtendsTrans(m, p.log, step.progress.log, rest.progress.log);
        rest
  }

  /// Lines 118-145 for the position `index` of `foreignKey` holding
  /// `keyProperty`. A foreign key already on the path records the cycle from
  /// its first occurrence to the end of the path. Any other is followed to
  /// the principal property at `index`, and the search there decides: its
  /// error aborts; no root records `keyProperty` itself when it requires a
  /// value generator; a root aborts when `keyProperty` requires a value
  /// generator and is recorded otherwise. The search's error message
  /// replaces the scan's in every case.
  ghost function Follow(
    m: WellFormedModel, keyProperty: PropertyId, entityType: EntityId, foreignKey: ForeignKeyId, index: nat,
    visited: seq<ForeignKeyId>, p: Progress): (step: Step)
    requires keyProperty < |m.properties|
    requires entityType == m.properties[keyProperty].declaringEntityType
    requires IsPath(m, visited, entityType) && ProgressValid(m, keyProperty, entityType, p)
    requires Edge(m, keyProperty, foreignKey, index)
    ensures Advances(m, keyProperty, entityType, p, step)
    ensures step.abort.None? ==> step.progress.rootPrincipals != [] || step.progress.errorMessage.Some?
    decreases |m.foreignKeys| - |visited|, 0
  {
    if foreignKey in visited then
      var start := CycleStart(visited, foreignKey);
      CycleOfPath(m, visited, entityType, start);
      Step(None, p.(errorMessage := Some(CircularDependency(visited[start..]))))
    else
      ExtendPath(m, visited, entityType, foreignKey);
      var next := PrincipalProperty(m, foreignKey, index);
      var s := Resolve(m, next, PrincipalEntityType(m, foreignKey), p.verified, visited + [foreignKey], p.log);
      var p' := p.(verified := s.verified, log := s.log);
      match s.r
      case Aborted(error) =>
        ChainErrorStep(m, keyProperty, foreignKey, index, error);
        Step(Some(error), p')
      case Returned(root, errorMessage) =>
        if root.None? then
          if Generated(m, keyProperty) then
            ReachesSelf(m, keyProperty);
            AssignKeepsCandidates(m, keyProperty, entityType, p.rootPrincipals, keyProperty, foreignKey);
            Step(None, p'.(rootPrincipals := Assign(p.rootPrincipals, keyProperty, foreignKey), errorMessage := errorMessage))
          else Step(None, p'.(errorMessage := errorMessage))
        else if Generated(m, keyProperty) then
          ReachesSelf(m, keyProperty);
          assert Resolves(m, next) by { assert Reaches(m, next, root.value); }
          Step(Some(ForeignKeyValueGenerationOnAdd(
                 keyProperty, m.properties[keyProperty].declaringEntityType, m.foreignKeys[foreignKey].properties)),
               p'.(errorMessage := errorMessage))
        else
          ReachesStep(m, keyProperty, foreignKey, index, root.value);
          AssignKeepsCandidates(m, keyProperty, entityType, p.rootPrincipals, root.value, foreignKey);
          Step(None, p'.(rootPrincipals := Assign(p.rootPrincipals, root.value, foreignKey), errorMessage := errorMessage))
  }

  // ---------------------------------------------------------------------
  // The root-principal search

  /// Finds the root principal of `keyProperty` by following, for every
  /// foreign key of `entityType` that has it as a dependent property, the
  /// principal property at the same position. `verified` memoises resolved
  /// properties and `visited` is the path of foreign keys taken so far.
  method VerifyRootPrincipal(
    m: WellFormedModel, keyProperty: PropertyId, entityType: EntityId,
    verified: map<PropertyId, PropertyId>, visited: seq<ForeignKeyId>, log: seq<Message>)
    returns (r: Resolution, verified': map<PropertyId, PropertyId>, log': seq<Message>)
    requires keyProperty < |m.properties|
    requires entityType == m.properties[keyProperty].declaringEntityType
    requires MemoValid(m, verified) && IsPath(m, visited, entityType)
    ensures Search(r, verified', log') == Resolve(m, keyProperty, entityType, verified, visited, log)
    decreases |m.foreignKeys| - |visited|, 2, 0, 0, 0
  {
    if keyProperty in verified {
      return Returned(Some(verified[keyProperty]), None), verified, log;
    }
    var abort, rootPrincipals, errorMessage;
    abort, verified', log', rootPrincipals, errorMessage := ScanForeignKeys(m, keyProperty, entityType, verified, visited, log);
    if abort.Some? {
      return Aborted(abort.value), verified', log';
    }

    if |rootPrincipals| == 0 {
      if errorMessage.Some? {
        return Returned(None, errorMessage), verified', log';
      }
      if !m.properties[keyProperty].requiresValueGenerator {
        return Aborted(PrincipalKeyNoValueGenerationOnAdd(
          keyProperty, m.properties[keyProperty].declaringEntityType)), verified', log';
      }
      return Returned(Some(keyProperty), None), verified', log';
    }

    if |rootPrincipals| > 1 {
      var warning := MultipleRootsWarning(m, rootPrincipals[0], rootPrincipals[1]);
      log' := log' + [warning];
      return Returned(Some(rootPrincipals[0].0), errorMessage), verified', log';
    }

    var root := rootPrincipals[0].0;
    verified' := verified'[keyProperty := root];
    return Returned(Some(root), None), verified', log';
  }

  /// The scan of `VerifyRootPrincipal`: every foreign key of `entityType`
  /// in order. It stops at the first error shown; otherwise it hands back
  /// the candidate roots collected and the last error message.
  method ScanForeignKeys(
    m: WellFormedModel, keyProperty: PropertyId, entityType: EntityId,
    verified: map<PropertyId, PropertyId>, visited: seq<ForeignKeyId>, log: seq<Message>)
    returns (abort: Option<Message>, verified': map<PropertyId, PropertyId>, log': seq<Message>,
             rootPrincipals: seq<(PropertyId, ForeignKeyId)>, errorMessage: Option<Message>)
    requires keyProperty < |m.properties|
    requires entityType == m.properties[keyProperty].declaringEntityType
    requires MemoValid(m, verified) && IsPath(m, visited, entityType)
    ensures Step(abort, Progress(verified', log', rootPrincipals, errorMessage))
         == ScanFrom(m, keyProperty, entityType, visited, 0, 0, Progress(verified, log, [], None))
    decreases |m.foreignKeys| - |visited|, 1
  {
    ghost var scan := ScanFrom(m, keyProperty, entityType, visited, 0, 0, Progress(verified, log, [], None));
    verified', log' := verified, log;
    abort, errorMessage, rootPrincipals := None, None, [];
    var i := 0;
    while i < |m.entityTypes[entityType].foreignKeys|
      invariant i <= |m.entityTypes[entityType].foreignKeys| && abort.None?
      invariant ProgressValid(m, keyProperty, entityType, Progress(verified', log', rootPrincipals, errorMessage))
      invariant ScanFrom(m, keyProperty, entityType, visited, i, 0, Progress(verified', log', rootPrincipals, errorMessage)) == scan
    {
      abort, verified', log', rootPrincipals, errorMessage :=
        ScanForeignKey(m, keyProperty, entityType, visited, i, verified', log', rootPrincipals, errorMessage);
      if abort.Some? {
        return;
      }
      i := i + 1;
    }
  }

  /// The inner loop of the scan: every position of the `a`-th foreign key of
  /// `entityType` holding `keyProperty`, in order.
  method ScanForeignKey(
    m: WellFormedModel, keyProperty: PropertyId, entityType: EntityId, visited: seq<ForeignKeyId>, a: nat,
    verified: map<PropertyId, PropertyId>, log: seq<Message>,
    rootPrincipals: seq<(PropertyId, ForeignKeyId)>, errorMessage: Option<Message>)
    returns (abort: Option<Message>, verified': map<PropertyId, PropertyId>, log': seq<Message>,
             rootPrincipals': seq<(PropertyId, ForeignKeyId)>, errorMessage': Option<Message>)
    requires keyProperty < |m.properties|
    requires entityType == m.properties[keyProperty].declaringEntityType
    requires IsPath(m, visited, entityType) && a < |m.entityTypes[entityType].foreignKeys|
    requires ProgressValid(m, keyProperty, entityType, Progress(verified, log, rootPrincipals, errorMessage))
    ensures var p := Progress(verified, log, rootPrincipals, errorMessage);
      var p' := Progress(verified', log', rootPrincipals', errorMessage');
      && (abort.Some? ==> Step(abort, p') == ScanFrom(m, keyProperty, entityType, visited, a, 0, p))
      && (abort.None? ==>
            && ProgressValid(m, keyProperty, entityType, p')
            && ScanFrom(m, keyProperty, entityType, visited, a + 1, 0, p')
               == ScanFrom(m, keyProperty, entityType, visited, a, 0, p))
    decreases |m.foreignKeys| - |visited|, 1, |m.entityTypes[entityType].foreignKeys| - a
  {
    ghost var scan := ScanFrom(m, keyProperty, entityType, visited, a, 0, Progress(verified, log, rootPrincipals, errorMessage));
    abort, verified', log', rootPrincipals', errorMessage' := None, verified, log, rootPrincipals, errorMessage;
    var foreignKey := m.entityTypes[entityType].foreignKeys[a];
    var fkProperties := m.foreignKeys[foreignKey].properties;
    var index := 0;
    while index < |fkProperties|
      invariant index <= |fkProperties| && abort.None?
      invariant ProgressValid(m, keyProperty, entityType, Progress(verified', log', rootPrincipals', errorMessage'))
      invariant ScanFrom(m, keyProperty, entityType, visited, a, index, Progress(verified', log', rootPrincipals', errorMessage')) == scan
    {
      abort, verified', log', rootPrincipals', errorMessage' := ScanPosition(
        m, keyProperty, entityType, visited, a, index, verified', log', rootPrincipals', errorMessage');
      if abort.Some? {
        return;
      }
      index := index + 1;
    }
  }

  /// The body of the inner loop: the position `index` of the `a`-th foreign
  /// key is followed when it holds `keyProperty`.
  method ScanPosition(
    m: WellFormedModel, keyProperty: PropertyId, entityType: EntityId, visited: seq<ForeignKeyId>, a: nat, index: nat,
    verified: map<PropertyId, PropertyId>, log: seq<Message>,
    rootPrincipals: seq<(PropertyId, ForeignKeyId)>, errorMessage: Option<Message>)
    returns (abort: Option<Message>, verified': map<PropertyId, PropertyId>, log': seq<Message>,
             rootPrincipals': seq<(PropertyId, ForeignKeyId)>, errorMessage': Option<Message>)
    requires keyProperty < |m.properties|
    requires entityType == m.properties[keyProperty].declaringEntityType
    requires IsPath(m, visited, entityType) && a < |m.entityTypes[entityType].foreignKeys|
    requires index < |m.foreignKeys[m.entityTypes[entityType].foreignKeys[a]].properties|
    requires ProgressValid(m, keyProperty, entityType, Progress(verified, log, rootPrincipals, errorMessage))
    ensures var p := Progress(verified, log, rootPrincipals, errorMessage);
      var p' := Progress(verified', log', rootPrincipals', errorMessage');
      && (abort.Some? ==> Step(abort, p') == ScanFrom(m, keyProperty, entityType, visited, a, index, p))
      && (abort.None? ==>
            && ProgressValid(m, keyProperty, entityType, p')
            && ScanFrom(m, keyProperty, entityType, visited, a, index + 1, p')
               == ScanFrom(m, keyProperty, entityType, visited, a, index, p))
    decreases |m.foreignKeys| - |visited|, 1, |m.entityTypes[entityType].foreignKeys| - a,
      |m.foreignKeys[m.entityTypes[entityType].foreignKeys[a]].properties| - index
  {
    abort, verified', log', rootPrincipals', errorMessage' := None, verified, log, rootPrincipals, errorMessage;
    var foreignKey := m.entityTypes[entityType].foreignKeys[a];
    if keyProperty == m.foreignKeys[foreignKey].properties[index] {
      abort, verified', log', rootPrincipals', errorMessage' := FollowForeignKey(
        m, keyProperty, entityType, foreignKey, index, visited, verified, log, rootPrincipals, errorMessage);
    }
  }

  /// One position of the scan: `keyProperty` is the dependent property at
  /// `index` of `foreignKey`.
  method FollowForeignKey(
    m: WellFormedModel, keyProperty: PropertyId, entityType: EntityId, foreignKey: ForeignKeyId, index: nat,
    visited: seq<ForeignKeyId>, verified: map<PropertyId, PropertyId>, log: seq<Message>,
    rootPrincipals: seq<(PropertyId, ForeignKeyId)>, errorMessage: Option<Message>)
    returns (abort: Option<Message>, verified': map<PropertyId, PropertyId>, log': seq<Message>,
             rootPrincipals': seq<(PropertyId, ForeignKeyId)>, errorMessage': Option<Message>)
    requires keyProperty < |m.properties|
    requires entityType == m.properties[keyProperty].declaringEntityType
    requires IsPath(m, visited, entityType)
    requires ProgressValid(m, keyProperty, entityType, Progress(verified, log, rootPrincipals, errorMessage))
    requires Edge(m, keyProperty, foreignKey, index)
    ensures Step(abort, Progress(verified', log', rootPrincipals', errorMessage'))
         == Follow(m, keyProperty, entityType, foreignKey, index, visited, Progress(verified, log, rootPrincipals, errorMessage))
    decreases |m.foreignKeys| - |visited|, 0
  {
    verified', log', rootPrincipals', errorMessage' := verified, log, rootPrincipals, errorMessage;
    abort := None;
    var fkProperties := m.foreignKeys[foreignKey].properties;
    var nextPrincipalProperty := m.keys[m.foreignKeys[foreignKey].principalKey].properties[index];
    if foreignKey in visited {
      var cycleStart := CycleStart(visited, foreignKey);
      errorMessage' := Some(CircularDependency(visited[cycleStart..]));
      return;
    }
    ExtendPath(m, visited, entityType, foreignKey);
    var next;
    next, verified', log' := VerifyRootPrincipal(
      m, nextPrincipalProperty, PrincipalEntityType(m, foreignKey), verified, visited + [foreignKey], log);
    if next.Aborted? {
      return Some(next.error), verified', log', rootPrincipals', errorMessage';
    }
    errorMessage' := next.errorMessage;
    if next.root.None? {
      if m.properties[keyProperty].requiresValueGenerator {
        rootPrincipals' := Assign(rootPrincipals, keyProperty, foreignKey);
      }
    } else if m.properties[keyProperty].requiresValueGenerator {
      abort := Some(ForeignKeyValueGenerationOnAdd(
        keyProperty, m.properties[keyProperty].declaringEntityType, fkProperties));
    } else {
      rootPrincipals' := Assign(rootPrincipals, next.root.value, foreignKey);
    }
  }

  // ---------------------------------------------------------------------
  // The chain check over the whole model

  /// What the chain check ends with: the error shown, or the memo table and
  /// the roots found, and in both cases the warnings shown.
  datatype ChainCheck =
    | ChainFailed(error: Message, log: seq<Message>)
    | ChainPassed(verified: map<PropertyId, PropertyId>, log: seq<Message>, roots: map<PropertyId, PropertyId>)

  /// The dependent property at position `j` of the `a`-th foreign key of `e`.
  function CheckedProperty(m: WellFormedModel, e: EntityId, a: nat, j: nat): PropertyId
    requires e < |m.entityTypes| && a < |m.entityTypes[e].foreignKeys|
    requires j < |m.foreignKeys[m.entityTypes[e].foreignKeys[a]].properties|
  {
    m.foreignKeys[m.entityTypes[e].foreignKeys[a]].properties[j]
  }

  /// Position (`e'`, `a'`, `j'`) of the chain check exists and comes at or
  /// after (`e`, `a`, `j`).
  ghost predicate CheckPositionFrom(m: WellFormedModel, e: EntityId, a: nat, j: nat, e': EntityId, a': nat, j': nat)
  {
    && e <= e' < |m.entityTypes| && a' < |m.entityTypes[e'].foreignKeys|
    && j' < |m.foreignKeys[m.entityTypes[e'].foreignKeys[a']].properties|
    && (e' == e ==> a <= a') && (e' == e && a' == a ==> j <= j')
  }

  ghost predicate CheckStart(m: WellFormedModel, e: EntityId, a: nat, j: nat)
  {
    && e <= |m.entityTypes|
    && (e < |m.entityTypes| ==>
          && a <= |m.entityTypes[e].foreignKeys|
          && (a < |m.entityTypes[e].foreignKeys| ==> j <= |m.foreignKeys[m.entityTypes[e].foreignKeys[a]].properties|))
  }

  /// An error the chain check shows: an error of the chain from some
  /// dependent property, or a cycle of foreign keys.
  ghost predicate ForeignKeyChainError(m: WellFormedModel, msg: Message)
  {
    || (exists q: PropertyId :: q < |m.properties| && Dependent(m, q) && ChainError(m, q, msg))
    || CycleMessage(m, msg)
  }

  /// Lines 86-91 for one dependent property: its root principal is searched
  /// with an empty path, and an error shown from inside the search or handed
  /// back by it ends the check; otherwise the root found is recorded.
  ghost function CheckProperty(
    m: WellFormedModel, property: PropertyId,
    verified: map<PropertyId, PropertyId>, log: seq<Message>, roots: map<PropertyId, PropertyId>): (c: ChainCheck)
    requires property < |m.properties| && Dependent(m, property)
    requires MemoValid(m, verified) && MemoValid(m, roots)
    ensures LogExtends(m, log, c.log)
    ensures c.ChainFailed? ==> ForeignKeyChainError(m, c.error)
    ensures c.ChainPassed? ==>
      && MemoValid(m, c.verified) && MemoValid(m, c.roots)
      && property in c.roots && c.roots == roots[property := c.roots[property]]
  {
    var s := Resolve(m, property, m.properties[property].declaringEntityType, verified, [], log);
    match s.r
    case Aborted(error) => ChainFailed(error, s.log)
    case Returned(root, errorMessage) =>
      if errorMessage.Some? then ChainFailed(errorMessage.value, s.log)
      else ChainPassed(s.verified, s.log, roots[property := root.value])
  }

  /// Lines 80-94 from position `j` of the `a`-th foreign key of entity type
  /// `e` on: every dependent property is checked in turn with the shared memo
  /// table, and the first error ends the check.
  ghost function CheckFrom(
    m: WellFormedModel, e: EntityId, a: nat, j: nat,
    verified: map<PropertyId, PropertyId>, log: seq<Message>, roots: map<PropertyId, PropertyId>): (c: ChainCheck)
    requires CheckStart(m, e, a, j)
    requires MemoValid(m, verified) && MemoValid(m, roots)
    ensures LogExtends(m, log, c.log)
    ensures c.ChainFailed? ==> ForeignKeyChainError(m, c.error)
    ensures c.ChainPassed? ==> MemoValid(m, c.roots) && roots.Keys <= c.roots.Keys
    decreases |m.entityTypes| - e,
      if e < |m.entityTypes| then |m.entityTypes[e].foreignKeys| - a else 0,
      if e < |m.entityTypes| && a < |m.entityTypes[e].foreignKeys|
      then |m.foreignKeys[m.entityTypes[e].foreignKeys[a]].properties| - j else 0
  {
    if e == |m.entityTypes| then ChainPassed(verified, log, roots)
    else if a == |m.entityTypes[e].foreignKeys| then CheckFrom(m, e + 1, 0, 0, verified, log, roots)
    else if j == |m.foreignKeys[m.entityTypes[e].foreignKeys[a]].properties| then CheckFrom(m, e, a + 1, 0, verified, log, roots)
    else
      var property := CheckedProperty(m, e, a, j);
      assert Edge(m, property, m.entityTypes[e].foreignKeys[a], j);
      var c := CheckProperty(m, property, verified, log, roots);
      if c.ChainFailed? then c
      else
        var rest := CheckFrom(m, e, a, j + 1, c.verified, c.log, c.roots);
        LogExtendsTrans(m, log, c.log, rest.log);
        rest
  }

  ghost function ChainCheckOf(m: WellFormedModel, log: seq<Message>): ChainCheck
  {
    CheckFrom(m, 0, 0, 0, map[], log, map[])
  }

  /// Searches the root principal of every dependent property of every
  /// foreign key of every entity type, sharing one memo table, and fails on
  /// the first error; the ghost `roots` records the root each search returned.
  method EnsureValidForeignKeyChains(m: WellFormedModel, log: seq<Message>)
    returns (error: Option<Message>, log': seq<Message>, ghost roots: map<PropertyId, PropertyId>)
    ensures var c := ChainCheckOf(m, log);
      && log' == c.log
      && (c.ChainFailed? ==> error == Some(c.error))
      && (c.ChainPassed? ==> error.None? && roots == c.roots)
  {
    ghost var check := ChainCheckOf(m, log);
    var verifiedProperties: map<PropertyId, PropertyId> := map[];
    error, log', roots := None, log, map[];
    var e := 0;
    while e < |m.entityTypes|
      invariant e <= |m.entityTypes| && MemoValid(m, verifiedProperties) && MemoValid(m, roots)
      invariant CheckFrom(m, e, 0, 0, verifiedProperties, log', roots) == check
    {
      var failure, v, l, r := VerifyEntityTypeForeignKeys(m, e, verifiedProperties, log', roots);
      if failure.Some? {
        assert check == ChainFailed(failure.value, l);
        return failure, l, r;
      }
      verifiedProperties, log', roots := v, l, r;
      e := e + 1;
    }
    assert check == ChainPassed(verifiedProperties, log', roots);
  }

  /// The two inner loops of the chain check: every dependent property of
  /// every foreign key of entity type `e`, in order.
  /// Lines 86-91: searches the root principal of one dependent property with
  /// an empty path; an error shown from inside the search, or an error
  /// message handed back by it, is the check's error.
  method VerifyForeignKeyProperty(
    m: WellFormedModel, property: PropertyId, verified: map<PropertyId, PropertyId>, log: seq<Message>,
    ghost roots: map<PropertyId, PropertyId>)
    returns (error: Option<Message>, verified': map<PropertyId, PropertyId>, log': seq<Message>,
             ghost roots': map<PropertyId, PropertyId>)
    requires property < |m.properties| && Dependent(m, property)
    requires MemoValid(m, verified) && MemoValid(m, roots)
    ensures CheckProperty(m, property, verified, log, roots) ==
      if error.Some? then ChainFailed(error.value, log') else ChainPassed(verified', log', roots')
  {
    var result;
    result, verified', log' := VerifyRootPrincipal(
      m, property, m.properties[property].declaringEntityType, verified, [], log);
    roots' := roots;
    if result.Aborted? {
      return Some(result.error), verified', log', roots';
    }
    if result.errorMessage.Some? {
      return result.errorMessage, verified', log', roots';
    }
    roots' := roots[property := result.root.value];
    error := None;
  }

  method VerifyEntityTypeForeignKeys(
    m: WellFormedModel, e: EntityId, verified: map<PropertyId, PropertyId>, log: seq<Message>, ghost roots: map<PropertyId, PropertyId>)
    returns (error: Option<Message>, verified': map<PropertyId, PropertyId>, log': seq<Message>,
             ghost roots': map<PropertyId, PropertyId>)
    requires e < |m.entityTypes| && MemoValid(m, verified) && MemoValid(m, roots)
    ensures error.Some? ==> ChainFailed(error.value, log') == CheckFrom(m, e, 0, 0, verified, log, roots)
    ensures error.None? ==>
      && MemoValid(m, verified') && MemoValid(m, roots')
      && CheckFrom(m, e + 1, 0, 0, verified', log', roots') == CheckFrom(m, e, 0, 0, verified, log, roots)
  {
    ghost var check := CheckFrom(m, e, 0, 0, verified, log, roots);
    error, verified', log', roots' := None, verified, log, roots;
    var i := 0;
    while i < |m.entityTypes[e].foreignKeys|
      invariant i <= |m.entityTypes[e].foreignKeys| && MemoValid(m, verified') && MemoValid(m, roots')
      invariant CheckFrom(m, e, i, 0, verified', log', roots') == check
    {
      var failure, v, l, r := VerifyForeignKeyProperties(m, e, i, verified', log', roots');
      if failure.Some? {
        assert check == ChainFailed(failure.value, l);
        return failure, v, l, r;
      }
      verified', log', roots' := v, l, r;
      i := i + 1;
    }
    assert CheckFrom(m, e, i, 0, verified', log', roots') == CheckFrom(m, e + 1, 0, 0, verified', log', roots');
  }

  /// The inner loop of the chain check: every dependent property of the
  /// `a`-th foreign key of entity type `e`, in order.
  method VerifyForeignKeyProperties(
    m: WellFormedModel, e: EntityId, a: nat, verified: map<PropertyId, PropertyId>, log: seq<Message>,
    ghost roots: map<PropertyId, PropertyId>)
    returns (error: Option<Message>, verified': map<PropertyId, PropertyId>, log': seq<Message>,
             ghost roots': map<PropertyId, PropertyId>)
    requires e < |m.entityTypes| && a < |m.entityTypes[e].foreignKeys|
    requires MemoValid(m, verified) && MemoValid(m, roots)
    ensures error.Some? ==> ChainFailed(error.value, log') == CheckFrom(m, e, a, 0, verified, log, roots)
    ensures error.None? ==>
      && MemoValid(m, verified') && MemoValid(m, roots')
      && CheckFrom(m, e, a + 1, 0, verified', log', roots') == CheckFrom(m, e, a, 0, verified, log, roots)
  {
    ghost var check := CheckFrom(m, e, a, 0, verified, log, roots);
    error, verified', log', roots' := None, verified, log, roots;
    var foreignKey := m.entityTypes[e].foreignKeys[a];
    var properties := m.foreignKeys[foreignKey].properties;
    var j := 0;
    while j < |properties|
      invariant j <= |properties| && MemoValid(m, verified') && MemoValid(m, roots')
      invariant CheckFrom(m, e, a, j, verified', log', roots') == check
    {
      var property := properties[j];
      assert Edge(m, property, foreignKey, j);
      var failure, v, l, r := VerifyForeignKeyProperty(m, property, verified', log', roots');
      if failure.Some? {
        assert check == ChainFailed(failure.value, l);
        return failure, v, l, r;
      }
      assert CheckFrom(m, e, a, j + 1, v, l, r) == CheckFrom(m, e, a, j, verified', log', roots');
      verified', log', roots' := v, l, r;
      j := j + 1;
    }
    assert CheckFrom(m, e, a, j, verified', log', roots') == CheckFrom(m, e, a + 1, 0, verified', log', roots');
  }

  /// Every position of the chain check from (`e`, `a`, `j`) on has a root
  /// recorded in `roots`.
  ghost predicate CoveredFrom(m: WellFormedModel, e: EntityId, a: nat, j: nat, roots: map<PropertyId, PropertyId>)
  {
    forall e': EntityId, a': nat, j': nat ::
      CheckPositionFrom(m, e, a, j, e', a', j') ==> CheckedProperty(m, e', a', j') in roots
  }

  /// A passing chain check has recorded a root for every position from
  /// (`e`, `a`, `j`) on.
  lemma {:induction false} CheckCovers(
    m: WellFormedModel, e: EntityId, a: nat, j: nat,
    verified: map<PropertyId, PropertyId>, log: seq<Message>, roots: map<PropertyId, PropertyId>)
    requires CheckStart(m, e, a, j)
    requires MemoValid(m, verified) && MemoValid(m, roots)
    ensures var c := CheckFrom(m, e, a, j, verified, log, roots);
      c.ChainPassed? ==> CoveredFrom(m, e, a, j, c.roots)
    decreases |m.entityTypes| - e,
      if e < |m.entityTypes| then |m.entityTypes[e].foreignKeys| - a else 0,
      if e < |m.entityTypes| && a < |m.entityTypes[e].foreignKeys|
      then |m.foreignKeys[m.entityTypes[e].foreignKeys[a]].properties| - j else 0, 1
  {
    if e == |m.entityTypes| {
    } else if a == |m.entityTypes[e].foreignKeys| {
      CheckCoversSkip(m, e, a, j, verified, log, roots);
    } else if j == |m.foreignKeys[m.entityTypes[e].foreignKeys[a]].properties| {
      CheckCoversSkip(m, e, a, j, verified, log, roots);
    } else {
      CheckCoversAt(m, e, a, j, verified, log, roots);
    }
  }

  lemma {:induction false} CheckCoversSkip(
    m: WellFormedModel, e: EntityId, a: nat, j: nat,
    verified: map<PropertyId, PropertyId>, log: seq<Message>, roots: map<PropertyId, PropertyId>)
    requires e < |m.entityTypes| && a <= |m.entityTypes[e].foreignKeys|
    requires a < |m.entityTypes[e].foreignKeys| ==> j == |m.foreignKeys[m.entityTypes[e].foreignKeys[a]].properties|
    requires MemoValid(m, verified) && MemoValid(m, roots)
    ensures var c := CheckFrom(m, e, a, j, verified, log, roots);
      c.ChainPassed? ==> CoveredFrom(m, e, a, j, c.roots)
    decreases |m.entityTypes| - e, |m.entityTypes[e].foreignKeys| - a,
      if a < |m.entityTypes[e].foreignKeys| then |m.foreignKeys[m.entityTypes[e].foreignKeys[a]].properties| - j else 0, 0
  {
    var c := CheckFrom(m, e, a, j, verified, log, roots);
    if a == |m.entityTypes[e].foreignKeys| {
      CheckCovers(m, e + 1, 0, 0, verified, log, roots);
      if c.ChainPassed? {
        CoversSkip(m, e, a, j, e + 1, 0, 0, c.roots);
      }
    } else {
      CheckCovers(m, e, a + 1, 0, verified, log, roots);
      if c.ChainPassed? {
        CoversSkip(m, e, a, j, e, a + 1, 0, c.roots);
      }
    }
  }

  lemma {:induction false} CheckCoversAt(
    m: WellFormedModel, e: EntityId, a: nat, j: nat,
    verified: map<PropertyId, PropertyId>, log: seq<Message>, roots: map<PropertyId, PropertyId>)
    requires e < |m.entityTypes| && a < |m.entityTypes[e].foreignKeys|
    requires j < |m.foreignKeys[m.entityTypes[e].foreignKeys[a]].properties|
    requires MemoValid(m, verified) && MemoValid(m, roots)
    ensures var c := CheckFrom(m, e, a, j, verified, log, roots);
      c.ChainPassed? ==> CoveredFrom(m, e, a, j, c.roots)
    decreases |m.entityTypes| - e, |m.entityTypes[e].foreignKeys| - a,
      |m.foreignKeys[m.entityTypes[e].foreignKeys[a]].properties| - j, 0
  {
    var c := CheckFrom(m, e, a, j, verified, log, roots);
    var property := CheckedProperty(m, e, a, j);
    assert Edge(m, property, m.entityTypes[e].foreignKeys[a], j);
    var c' := CheckProperty(m, property, verified, log, roots);
    if c'.ChainPassed? {
      CheckCovers(m, e, a, j + 1, c'.verified, c'.log, c'.roots);
      if c.ChainPassed? {
        CoversStep(m, e, a, j, c.roots);
      }
    }
  }

  /// Past the last property of a foreign key, or the last foreign key of an
  /// entity type, the positions left are those from the next one.
  lemma CoversSkip(m: WellFormedModel, e: EntityId, a: nat, j: nat, e2: EntityId, a2: nat, j2: nat, roots: map<PropertyId, PropertyId>)
    requires e < |m.entityTypes| && a <= |m.entityTypes[e].foreignKeys|
    requires
      || (a == |m.entityTypes[e].foreignKeys| && (e2, a2, j2) == (e + 1, 0, 0))
      || (a < |m.entityTypes[e].foreignKeys| && j == |m.foreignKeys[m.entityTypes[e].foreignKeys[a]].properties|
          && (e2, a2, j2) == (e, a + 1, 0))
    requires CoveredFrom(m, e2, a2, j2, roots)
    ensures CoveredFrom(m, e, a, j, roots)
  {
    forall e': EntityId, a': nat, j': nat | CheckPositionFrom(m, e, a, j, e', a', j')
      ensures CheckedProperty(m, e', a', j') in roots
    {
      assert CheckPositionFrom(m, e2, a2, j2, e', a', j');
    }
  }

  lemma CoversStep(m: WellFormedModel, e: EntityId, a: nat, j: nat, roots: map<PropertyId, PropertyId>)
    requires e < |m.entityTypes| && a < |m.entityTypes[e].foreignKeys|
    requires j < |m.foreignKeys[m.entityTypes[e].foreignKeys[a]].properties|
    requires CheckedProperty(m, e, a, j) in roots && CoveredFrom(m, e, a, j + 1, roots)
    ensures CoveredFrom(m, e, a, j, roots)
  {
    forall e': EntityId, a': nat, j': nat | CheckPositionFrom(m, e, a, j, e', a', j')
      ensures CheckedProperty(m, e', a', j') in roots
    {
      if (e', a', j') != (e, a, j) {
        assert CheckPositionFrom(m, e, a, j + 1, e', a', j');
      }
    }
  }

  /// Every dependent property is checked: it sits at some position of the
  /// foreign keys of its entity type.
  lemma DependentChecked(m: WellFormedModel, q: PropertyId)
    requires q < |m.properties| && Dependent(m, q)
    ensures exists a: nat, j: nat ::
      CheckPositionFrom(m, 0, 0, 0, m.properties[q].declaringEntityType, a, j)
      && CheckedProperty(m, m.properties[q].declaringEntityType, a, j) == q
  {
    var f: ForeignKeyId, j: nat :| Edge(m, q, f, j);
    var e := m.properties[q].declaringEntityType;
    var a :| 0 <= a < |m.entityTypes[e].foreignKeys| && m.entityTypes[e].foreignKeys[a] == f;
    assert CheckPositionFrom(m, 0, 0, 0, e, a, j) && CheckedProperty(m, e, a, j) == q;
  }

  /// When the chain check passes, every dependent property has a root
  /// recorded, and that root is a value-generating property reached from it
  /// (the property itself when it requires a value generator).
  lemma ChainCheckRoots(m: WellFormedModel, log: seq<Message>)
    ensures var c := ChainCheckOf(m, log);
      c.ChainPassed? ==>
        forall q: PropertyId :: q < |m.properties| && Dependent(m, q) ==> q in c.roots && ValidRoot(m, q, c.roots[q])
  {
    var c := ChainCheckOf(m, log);
    CheckCovers(m, 0, 0, 0, map[], log, map[]);
    forall q: PropertyId | q < |m.properties| && Dependent(m, q) && c.ChainPassed?
      ensures q in c.roots
    {
      DependentChecked(m, q);
    }
  }

  // ---------------------------------------------------------------------
  // Models without cycles of foreign keys

  /// Every property reached from `q` is a dependent property exactly when it
  /// does not require a value generator: every chain from `q` ends at a
  /// value-generating property, and no value-generating property on the way
  /// is itself a dependent property.
  ghost predicate WellRooted(m: WellFormedModel, q: PropertyId)
    requires q < |m.properties|
  {
    forall r: PropertyId {:trigger Reaches(m, q, r)} ::
      r < |m.properties| && Reaches(m, q, r) ==> (Dependent(m, r) <==> !Generated(m, r))
  }

  /// The chains from every dependent property are well rooted.
  ghost predicate ChainsWellRooted(m: WellFormedModel)
  {
    forall q: PropertyId :: q < |m.properties| && Dependent(m, q) ==> WellRooted(m, q)
  }

  /// All the chains from one property that end at a value-generating
  /// property end at the same one.
  ghost predicate UniqueRoots(m: WellFormedModel)
  {
    forall q: PropertyId, r1: PropertyId, r2: PropertyId {:trigger Reaches(m, q, r1), Reaches(m, q, r2)} ::
      && q < |m.properties| && r1 < |m.properties| && r2 < |m.properties|
      && Reaches(m, q, r1) && Reaches(m, q, r2)
      && Generated(m, r1) && !Dependent(m, r1) && Generated(m, r2) && !Dependent(m, r2)
      ==> r1 == r2
  }

  ghost predicate MemoClean(m: WellFormedModel, verified: map<PropertyId, PropertyId>)
  {
    forall q :: q in verified ==> q < |m.properties| && WellRooted(m, q)
  }

  lemma WellRootedStep(m: WellFormedModel, q: PropertyId, f: ForeignKeyId, i: nat)
    requires q < |m.properties| && Edge(m, q, f, i) && WellRooted(m, q)
    ensures WellRooted(m, PrincipalProperty(m, f, i))
  {
    forall r: PropertyId | r < |m.properties| && Reaches(m, PrincipalProperty(m, f, i), r)
      ensures Dependent(m, r) <==> !Generated(m, r)
    {
      ReachesStep(m, q, f, i, r);
    }
  }

  /// A property is well rooted when it is a dependent property exactly when
  /// it does not require a value generator, and every principal property
  /// one foreign-key step away is well rooted.
  lemma WellRootedFromEdges(m: WellFormedModel, q: PropertyId)
    requires q < |m.properties|
    requires Dependent(m, q) <==> !Generated(m, q)
    requires forall f: ForeignKeyId, j: nat :: Edge(m, q, f, j) ==> WellRooted(m, PrincipalProperty(m, f, j))
    ensures WellRooted(m, q)
  {
    forall r: PropertyId | r < |m.properties| && Reaches(m, q, r)
      ensures Dependent(m, r) <==> !Generated(m, r)
    {
      var steps: seq<(ForeignKeyId, nat)> :| Chain(m, q, steps, r);
      if steps != [] {
        assert Chain(m, PrincipalProperty(m, steps[0].0, steps[0].1), steps[1..], r);
        assert Reaches(m, PrincipalProperty(m, steps[0].0, steps[0].1), r);
      }
    }
  }

  lemma CandidatesDependent(m: WellFormedModel, keyProperty: PropertyId, rp: seq<(PropertyId, ForeignKeyId)>)
    requires keyProperty < |m.properties|
    requires Candidates(m, keyProperty, m.properties[keyProperty].declaringEntityType, rp)
    ensures rp != [] ==> Dependent(m, keyProperty)
  {
    if rp != [] {
      var f := rp[0].1;
      var j :| 0 <= j < |m.foreignKeys[f].properties| && m.foreignKeys[f].properties[j] == keyProperty;
      assert Edge(m, keyProperty, f, j);
    }
  }

  /// Every position from (`a`, `i`) on that holds `keyProperty` leads to a
  /// well-rooted principal property, and `keyProperty` does not require a
  /// value generator if there is one.
  ghost predicate CleanFrom(m: WellFormedModel, keyProperty: PropertyId, e: EntityId, a: nat, i: nat)
    requires keyProperty < |m.properties| && e < |m.entityTypes|
  {
    forall b: nat, j: nat ::
      a <= b < |m.entityTypes[e].foreignKeys| && (b == a ==> i <= j)
      && j < |m.foreignKeys[m.entityTypes[e].foreignKeys[b]].properties|
      && m.foreignKeys[m.entityTypes[e].foreignKeys[b]].properties[j] == keyProperty ==>
      !Generated(m, keyProperty) && WellRooted(m, PrincipalProperty(m, m.entityTypes[e].foreignKeys[b], j))
  }

  /// In a model without cycles, a search that does not abort has met only
  /// well-rooted properties, and so has every search memoised.
  lemma {:induction false} ResolveClean(
    m: WellFormedModel, keyProperty: PropertyId, entityType: EntityId,
    verified: map<PropertyId, PropertyId>, visited: seq<ForeignKeyId>, log: seq<Message>)
    requires keyProperty < |m.properties|
    requires entityType == m.properties[keyProperty].declaringEntityType
    requires MemoValid(m, verified) && IsPath(m, visited, entityType)
    requires Acyclic(m) && MemoClean(m, verified)
    ensures var s := Resolve(m, keyProperty, entityType, verified, visited, log);
      s.r.Aborted? || (WellRooted(m, keyProperty) && MemoClean(m, s.verified))
    decreases |m.foreignKeys| - |visited|, 2, 0, 0, 0
  {
    if keyProperty !in verified {
      var p := Progress(verified, log, [], None);
      ScanClean(m, keyProperty, entityType, visited, 0, 0, p);
      var step := ScanFrom(m, keyProperty, entityType, visited, 0, 0, p);
      if !Resolve(m, keyProperty, entityType, verified, visited, log).r.Aborted? {
        CandidatesDependent(m, keyProperty, step.progress.rootPrincipals);
        var fks := m.entityTypes[entityType].foreignKeys;
        forall f: ForeignKeyId, j: nat | Edge(m, keyProperty, f, j)
          ensures !Generated(m, keyProperty) && WellRooted(m, PrincipalProperty(m, f, j))
        {
          var b :| 0 <= b < |fks| && fks[b] == f;
          assert m.foreignKeys[fks[b]].properties[j] == keyProperty;
        }
        WellRootedFromEdges(m, keyProperty);
      }
    }
  }

  lemma {:induction false} ScanClean(
    m: WellFormedModel, keyProperty: PropertyId, entityType: EntityId, visited: seq<ForeignKeyId>, a: nat, i: nat, p: Progress)
    requires keyProperty < |m.properties|
    requires entityType == m.properties[keyProperty].declaringEntityType
    requires IsPath(m, visited, entityType) && ProgressValid(m, keyProperty, entityType, p)
    requires a <= |m.entityTypes[entityType].foreignKeys|
    requires a < |m.entityTypes[entityType].foreignKeys| ==>
      i <= |m.foreignKeys[m.entityTypes[entityType].foreignKeys[a]].properties|
    requires Acyclic(m) && MemoClean(m, p.verified)
    ensures var step := ScanFrom(m, keyProperty, entityType, visited, a, i, p);
      step.abort.None? ==> MemoClean(m, step.progress.verified) && CleanFrom(m, keyProperty, entityType, a, i)
    decreases |m.foreignKeys| - |visited|, 1, |m.entityTypes[entityType].foreignKeys| - a,
      if a < |m.entityTypes[entityType].foreignKeys|
      then |m.foreignKeys[m.entityTypes[entityType].foreignKeys[a]].properties| - i else 0, 1
  {
    var fks := m.entityTypes[entityType].foreignKeys;
    if a == |fks| {
    } else if i == |m.foreignKeys[fks[a]].properties| {
      ScanClean(m, keyProperty, entityType, visited, a + 1, 0, p);
      if ScanFrom(m, keyProperty, entityType, visited, a + 1, 0, p).abort.None? {
        CleanShift(m, keyProperty, entityType, a, i, a + 1, 0);
      }
    } else if m.foreignKeys[fks[a]].properties[i] != keyProperty {
      ScanClean(m, keyProperty, entityType, visited, a, i + 1, p);
      if ScanFrom(m, keyProperty, entityType, visited, a, i + 1, p).abort.None? {
        CleanShift(m, keyProperty, entityType, a, i, a, i + 1);
      }
    } else {
      ScanCleanAt(m, keyProperty, entityType, visited, a, i, p);
    }
  }

  /// Skipping past the end of a foreign key, or past a position that does
  /// not hold `keyProperty`, leaves the same positions to check.
  lemma CleanShift(m: WellFormedModel, keyProperty: PropertyId, e: EntityId, a: nat, i: nat, a2: nat, i2: nat)
    requires keyProperty < |m.properties| && e < |m.entityTypes|
    requires a < |m.entityTypes[e].foreignKeys|
    requires
      || (i == |m.foreignKeys[m.entityTypes[e].foreignKeys[a]].properties| && (a2, i2) == (a + 1, 0))
      || (i < |m.foreignKeys[m.entityTypes[e].foreignKeys[a]].properties|
          && m.foreignKeys[m.entityTypes[e].foreignKeys[a]].properties[i] != keyProperty && (a2, i2) == (a, i + 1))
    requires CleanFrom(m, keyProperty, e, a2, i2)
    ensures CleanFrom(m, keyProperty, e, a, i)
  {
  }

  lemma {:induction false} ScanCleanAt(
    m: WellFormedModel, keyProperty: PropertyId, entityType: EntityId, visited: seq<ForeignKeyId>, a: nat, i: nat, p: Progress)
    requires keyProperty < |m.properties|
    requires entityType == m.properties[keyProperty].declaringEntityType
    requires IsPath(m, visited, entityType) && ProgressValid(m, keyProperty, entityType, p)
    requires a < |m.entityTypes[entityType].foreignKeys|
    requires i < |m.foreignKeys[m.entityTypes[entityType].foreignKeys[a]].properties|
    requires m.foreignKeys[m.entityTypes[entityType].foreignKeys[a]].properties[i] == keyProperty
    requires Acyclic(m) && MemoClean(m, p.verified)
    ensures var step := ScanFrom(m, keyProperty, entityType, visited, a, i, p);
      step.abort.None? ==> MemoClean(m, step.progress.verified) && CleanFrom(m, keyProperty, entityType, a, i)
    decreases |m.foreignKeys| - |visited|, 1, |m.entityTypes[entityType].foreignKeys| - a,
      |m.foreignKeys[m.entityTypes[entityType].foreignKeys[a]].properties| - i, 0
  {
    var f := m.entityTypes[entityType].foreignKeys[a];
    if f in visited {
      CycleOfPath(m, visited, entityType, CycleStart(visited, f));
      assert false;
    }
    ExtendPath(m, visited, entityType, f);
    var next := PrincipalProperty(m, f, i);
    ResolveClean(m, next, PrincipalEntityType(m, f), p.verified, visited + [f], p.log);
    var step := Follow(m, keyProperty, entityType, f, i, visited, p);
    if step.abort.None? {
      ScanClean(m, keyProperty, entityType, visited, a, i + 1, step.progress);
    }
  }

  /// In a model without cycles, the search from a well-rooted property
  /// returns a root and no error message, and shows no warning when chains
  /// end at one root.
  lemma {:induction false} ResolveComplete(
    m: WellFormedModel, keyProperty: PropertyId, entityType: EntityId,
    verified: map<PropertyId, PropertyId>, visited: seq<ForeignKeyId>, log: seq<Message>)
    requires keyProperty < |m.properties|
    requires entityType == m.properties[keyProperty].declaringEntityType
    requires MemoValid(m, verified) && IsPath(m, visited, entityType)
    requires Acyclic(m) && WellRooted(m, keyProperty)
    ensures var s := Resolve(m, keyProperty, entityType, verified, visited, log);
      && s.r.Returned? && s.r.root.Some? && s.r.errorMessage.None?
      && (UniqueRoots(m) ==> s.log == log)
    decreases |m.foreignKeys| - |visited|, 2, 0, 0, 0
  {
    if keyProperty !in verified {
      var p := Progress(verified, log, [], None);
      ScanComplete(m, keyProperty, entityType, visited, 0, 0, p);
      ReachesSelf(m, keyProperty);
      if ScanFrom(m, keyProperty, entityType, visited, 0, 0, p).progress.rootPrincipals == [] {
        NoPositionNotDependent(m, keyProperty);
      }
    }
  }

  lemma {:induction false} ScanComplete(
    m: WellFormedModel, keyProperty: PropertyId, entityType: EntityId, visited: seq<ForeignKeyId>, a: nat, i: nat, p: Progress)
    requires keyProperty < |m.properties|
    requires entityType == m.properties[keyProperty].declaringEntityType
    requires IsPath(m, visited, entityType) && ProgressValid(m, keyProperty, entityType, p)
    requires a <= |m.entityTypes[entityType].foreignKeys|
    requires a < |m.entityTypes[entityType].foreignKeys| ==>
      i <= |m.foreignKeys[m.entityTypes[entityType].foreignKeys[a]].properties|
    requires Acyclic(m) && WellRooted(m, keyProperty) && p.errorMessage.None?
    requires UniqueRoots(m) ==> |p.rootPrincipals| <= 1
    ensures var step := ScanFrom(m, keyProperty, entityType, visited, a, i, p);
      && step.abort.None? && step.progress.errorMessage.None?
      && (UniqueRoots(m) ==> |step.progress.rootPrincipals| <= 1 && step.progress.log == p.log)
    decreases |m.foreignKeys| - |visited|, 1, |m.entityTypes[entityType].foreignKeys| - a,
      if a < |m.entityTypes[entityType].foreignKeys|
      then |m.foreignKeys[m.entityTypes[entityType].foreignKeys[a]].properties| - i else 0, 1
  {
    var fks := m.entityTypes[entityType].foreignKeys;
    if a == |fks| {
    } else if i == |m.foreignKeys[fks[a]].properties| {
      ScanComplete(m, keyProperty, entityType, visited, a + 1, 0, p);
    } else if m.foreignKeys[fks[a]].properties[i] != keyProperty {
      ScanComplete(m, keyProperty, entityType, visited, a, i + 1, p);
    } else {
      ScanCompleteAt(m, keyProperty, entityType, visited, a, i, p);
    }
  }

  lemma {:induction false} ScanCompleteAt(
    m: WellFormedModel, keyProperty: PropertyId, entityType: EntityId, visited: seq<ForeignKeyId>, a: nat, i: nat, p: Progress)
    requires keyProperty < |m.properties|
    requires entityType == m.properties[keyProperty].declaringEntityType
    requires IsPath(m, visited, entityType) && ProgressValid(m, keyProperty, entityType, p)
    requires a < |m.entityTypes[entityType].foreignKeys|
    requires i < |m.foreignKeys[m.entityTypes[entityType].foreignKeys[a]].properties|
    requires m.foreignKeys[m.entityTypes[entityType].foreignKeys[a]].properties[i] == keyProperty
    requires Acyclic(m) && WellRooted(m, keyProperty) && p.errorMessage.None?
    requires UniqueRoots(m) ==> |p.rootPrincipals| <= 1
    ensures var step := ScanFrom(m, keyProperty, entityType, visited, a, i, p);
      && step.abort.None? && step.progress.errorMessage.None?
      && (UniqueRoots(m) ==> |step.progress.rootPrincipals| <= 1 && step.progress.log == p.log)
    decreases |m.foreignKeys| - |visited|, 1, |m.entityTypes[entityType].foreignKeys| - a,
      |m.foreignKeys[m.entityTypes[entityType].foreignKeys[a]].properties| - i, 0
  {
    var f := m.entityTypes[entityType].foreignKeys[a];
    if f in visited {
      CycleOfPath(m, visited, entityType, CycleStart(visited, f));
      assert false;
    }
    ExtendPath(m, visited, entityType, f);
    var next := PrincipalProperty(m, f, i);
    assert Edge(m, keyProperty, f, i);
    ReachesSelf(m, keyProperty);
    WellRootedStep(m, keyProperty, f, i);
    ResolveComplete(m, next, PrincipalEntityType(m, f), p.verified, visited + [f], p.log);
    var s := Resolve(m, next, PrincipalEntityType(m, f), p.verified, visited + [f], p.log);
    ReachesStep(m, keyProperty, f, i, s.r.root.value);
    var step := Follow(m, keyProperty, entityType, f, i, visited, p);
    ScanComplete(m, keyProperty, entityType, visited, a, i + 1, step.progress);
  }


  /// Every property at a position of the chain check from (`e`, `a`, `j`)
  /// on is well rooted.
  ghost predicate RootedFrom(m: WellFormedModel, e: EntityId, a: nat, j: nat)
  {
    forall e': EntityId, a': nat, j': nat ::
      CheckPositionFrom(m, e, a, j, e', a', j') ==> WellRooted(m, CheckedProperty(m, e', a', j'))
  }

  lemma RootedSkip(m: WellFormedModel, e: EntityId, a: nat, j: nat, e2: EntityId, a2: nat, j2: nat)
    requires e < |m.entityTypes| && a <= |m.entityTypes[e].foreignKeys|
    requires
      || (a == |m.entityTypes[e].foreignKeys| && (e2, a2, j2) == (e + 1, 0, 0))
      || (a < |m.entityTypes[e].foreignKeys| && j == |m.foreignKeys[m.entityTypes[e].foreignKeys[a]].properties|
          && (e2, a2, j2) == (e, a + 1, 0))
    ensures RootedFrom(m, e, a, j) <==> RootedFrom(m, e2, a2, j2)
  {
    forall e': EntityId, a': nat, j': nat
      ensures CheckPositionFrom(m, e, a, j, e', a', j') <==> CheckPositionFrom(m, e2, a2, j2, e', a', j')
    {
    }
  }

  lemma RootedStep(m: WellFormedModel, e: EntityId, a: nat, j: nat)
    requires e < |m.entityTypes| && a < |m.entityTypes[e].foreignKeys|
    requires j < |m.foreignKeys[m.entityTypes[e].foreignKeys[a]].properties|
    ensures RootedFrom(m, e, a, j) <==> WellRooted(m, CheckedProperty(m, e, a, j)) && RootedFrom(m, e, a, j + 1)
  {
    assert CheckPositionFrom(m, e, a, j, e, a, j);
    forall e': EntityId, a': nat, j': nat
      ensures CheckPositionFrom(m, e, a, j, e', a', j') <==>
        (e', a', j') == (e, a, j) || CheckPositionFrom(m, e, a, j + 1, e', a', j')
    {
    }
  }

  /// In a model without cycles, a chain check that passes has met only
  /// well-rooted properties.
  lemma {:induction false} CheckClean(
    m: WellFormedModel, e: EntityId, a: nat, j: nat,
    verified: map<PropertyId, PropertyId>, log: seq<Message>, roots: map<PropertyId, PropertyId>)
    requires CheckStart(m, e, a, j)
    requires MemoValid(m, verified) && MemoValid(m, roots)
    requires Acyclic(m) && MemoClean(m, verified)
    ensures CheckFrom(m, e, a, j, verified, log, roots).ChainPassed? ==> RootedFrom(m, e, a, j)
    decreases |m.entityTypes| - e,
      if e < |m.entityTypes| then |m.entityTypes[e].foreignKeys| - a else 0,
      if e < |m.entityTypes| && a < |m.entityTypes[e].foreignKeys|
      then |m.foreignKeys[m.entityTypes[e].foreignKeys[a]].properties| - j else 0, 1
  {
    if e == |m.entityTypes| {
    } else if a == |m.entityTypes[e].foreignKeys| {
      CheckCleanSkip(m, e, a, j, verified, log, roots);
    } else if j == |m.foreignKeys[m.entityTypes[e].foreignKeys[a]].properties| {
      CheckCleanSkip(m, e, a, j, verified, log, roots);
    } else {
      CheckCleanAt(m, e, a, j, verified, log, roots);
    }
  }

  lemma {:induction false} CheckCleanSkip(
    m: WellFormedModel, e: EntityId, a: nat, j: nat,
    verified: map<PropertyId, PropertyId>, log: seq<Message>, roots: map<PropertyId, PropertyId>)
    requires e < |m.entityTypes| && a <= |m.entityTypes[e].foreignKeys|
    requires a < |m.entityTypes[e].foreignKeys| ==> j == |m.foreignKeys[m.entityTypes[e].foreignKeys[a]].properties|
    requires MemoValid(m, verified) && MemoValid(m, roots)
    requires Acyclic(m) && MemoClean(m, verified)
    ensures CheckFrom(m, e, a, j, verified, log, roots).ChainPassed? ==> RootedFrom(m, e, a, j)
    decreases |m.entityTypes| - e, |m.entityTypes[e].foreignKeys| - a,
      if a < |m.entityTypes[e].foreignKeys| then |m.foreignKeys[m.entityTypes[e].foreignKeys[a]].properties| - j else 0, 0
  {
    var c := CheckFrom(m, e, a, j, verified, log, roots);
    if a == |m.entityTypes[e].foreignKeys| {
      CheckClean(m, e + 1, 0, 0, verified, log, roots);
      RootedSkip(m, e, a, j, e + 1, 0, 0);
    } else {
      CheckClean(m, e, a + 1, 0, verified, log, roots);
      RootedSkip(m, e, a, j, e, a + 1, 0);
    }
  }

  lemma {:induction false} CheckCleanAt(
    m: WellFormedModel, e: EntityId, a: nat, j: nat,
    verified: map<PropertyId, PropertyId>, log: seq<Message>, roots: map<PropertyId, PropertyId>)
    requires e < |m.entityTypes| && a < |m.entityTypes[e].foreignKeys|
    requires j < |m.foreignKeys[m.entityTypes[e].foreignKeys[a]].properties|
    requires MemoValid(m, verified) && MemoValid(m, roots)
    requires Acyclic(m) && MemoClean(m, verified)
    ensures CheckFrom(m, e, a, j, verified, log, roots).ChainPassed? ==> RootedFrom(m, e, a, j)
    decreases |m.entityTypes| - e, |m.entityTypes[e].foreignKeys| - a,
      |m.foreignKeys[m.entityTypes[e].foreignKeys[a]].properties| - j, 0
  {
    var property := CheckedProperty(m, e, a, j);
    assert Edge(m, property, m.entityTypes[e].foreignKeys[a], j);
    ResolveClean(m, property, m.properties[property].declaringEntityType, verified, [], log);
    var c := CheckProperty(m, property, verified, log, roots);
    if c.ChainPassed? {
      CheckClean(m, e, a, j + 1, c.verified, c.log, c.roots);
      RootedStep(m, e, a, j);
    }
  }

  /// In a model without cycles, a chain check over well-rooted properties
  /// passes, and shows no warning when chains end at one root.
  lemma {:induction false} CheckComplete(
    m: WellFormedModel, e: EntityId, a: nat, j: nat,
    verified: map<PropertyId, PropertyId>, log: seq<Message>, roots: map<PropertyId, PropertyId>)
    requires CheckStart(m, e, a, j)
    requires MemoValid(m, verified) && MemoValid(m, roots)
    requires Acyclic(m) && RootedFrom(m, e, a, j)
    ensures var c := CheckFrom(m, e, a, j, verified, log, roots);
      c.ChainPassed? && (UniqueRoots(m) ==> c.log == log)
    decreases |m.entityTypes| - e,
      if e < |m.entityTypes| then |m.entityTypes[e].foreignKeys| - a else 0,
      if e < |m.entityTypes| && a < |m.entityTypes[e].foreignKeys|
      then |m.foreignKeys[m.entityTypes[e].foreignKeys[a]].properties| - j else 0, 1
  {
    if e == |m.entityTypes| {
    } else if a == |m.entityTypes[e].foreignKeys| {
      CheckCompleteSkip(m, e, a, j, verified, log, roots);
    } else if j == |m.foreignKeys[m.entityTypes[e].foreignKeys[a]].properties| {
      CheckCompleteSkip(m, e, a, j, verified, log, roots);
    } else {
      CheckCompleteAt(m, e, a, j, verified, log, roots);
    }
  }

  lemma {:induction false} CheckCompleteSkip(
    m: WellFormedModel, e: EntityId, a: nat, j: nat,
    verified: map<PropertyId, PropertyId>, log: seq<Message>, roots: map<PropertyId, PropertyId>)
    requires e < |m.entityTypes| && a <= |m.entityTypes[e].foreignKeys|
    requires a < |m.entityTypes[e].foreignKeys| ==> j == |m.foreignKeys[m.entityTypes[e].foreignKeys[a]].properties|
    requires MemoValid(m, verified) && MemoValid(m, roots)
    requires Acyclic(m) && RootedFrom(m, e, a, j)
    ensures var c := CheckFrom(m, e, a, j, verified, log, roots);
      c.ChainPassed? && (UniqueRoots(m) ==> c.log == log)
    decreases |m.entityTypes| - e, |m.entityTypes[e].foreignKeys| - a,
      if a < |m.entityTypes[e].foreignKeys| then |m.foreignKeys[m.entityTypes[e].foreignKeys[a]].properties| - j else 0, 0
  {
    if a == |m.entityTypes[e].foreignKeys| {
      RootedSkip(m, e, a, j, e + 1, 0, 0);
      CheckComplete(m, e + 1, 0, 0, verified, log, roots);
    } else {
      RootedSkip(m, e, a, j, e, a + 1, 0);
      CheckComplete(m, e, a + 1, 0, verified, log, roots);
    }
  }

  lemma {:induction false} CheckCompleteAt(
    m: WellFormedModel, e: EntityId, a: nat, j: nat,
    verified: map<PropertyId, PropertyId>, log: seq<Message>, roots: map<PropertyId, PropertyId>)
    requires e < |m.entityTypes| && a < |m.entityTypes[e].foreignKeys|
    requires j < |m.foreignKeys[m.entityTypes[e].foreignKeys[a]].properties|
    requires MemoValid(m, verified) && MemoValid(m, roots)
    requires Acyclic(m) && RootedFrom(m, e, a, j)
    ensures var c := CheckFrom(m, e, a, j, verified, log, roots);
      c.ChainPassed? && (UniqueRoots(m) ==> c.log == log)
    decreases |m.entityTypes| - e, |m.entityTypes[e].foreignKeys| - a,
      |m.foreignKeys[m.entityTypes[e].foreignKeys[a]].properties| - j, 0
  {
    var property := CheckedProperty(m, e, a, j);
    assert Edge(m, property, m.entityTypes[e].foreignKeys[a], j);
    RootedStep(m, e, a, j);
    ResolveComplete(m, property, m.properties[property].declaringEntityType, verified, [], log);
    var c := CheckProperty(m, property, verified, log, roots);
    CheckComplete(m, e, a, j + 1, c.verified, c.log, c.roots);
  }

  /// The headline property of the chain check: in a model without cycles of
  /// foreign keys it passes exactly when the chains from every dependent
  /// property are well rooted, and it then shows no warning when the chains
  /// from each property end at one root.
  lemma ChainCheckAcyclic(m: WellFormedModel, log: seq<Message>)
    requires Acyclic(m)
    ensures ChainCheckOf(m, log).ChainPassed? <==> ChainsWellRooted(m)
    ensures ChainsWellRooted(m) && UniqueRoots(m) ==> ChainCheckOf(m, log).log == log
  {
    CheckClean(m, 0, 0, 0, map[], log, map[]);
    if ChainsWellRooted(m) {
      forall e': EntityId, a': nat, j': nat | CheckPositionFrom(m, 0, 0, 0, e', a', j')
        ensures WellRooted(m, CheckedProperty(m, e', a', j'))
      {
        assert Edge(m, CheckedProperty(m, e', a', j'), m.entityTypes[e'].foreignKeys[a'], j');
      }
      CheckComplete(m, 0, 0, 0, map[], log, map[]);
    }
    if ChainCheckOf(m, log).ChainPassed? {
      forall q: PropertyId | q < |m.properties| && Dependent(m, q)
        ensures WellRooted(m, q)
      {
        DependentChecked(m, q);
      }
    }
  }

  // ---------------------------------------------------------------------
  // Validate, lines 16-22

  /// Runs the four checks in order. The first error aborts the validation,
  /// so no later check runs; the warnings shown before it are kept.
  method Validate(m: WellFormedModel) returns (v: Validation, ghost roots: map<PropertyId, PropertyId>)
    ensures EnsureNoShadowEntities(m).Some? ==> v == Failed(EnsureNoShadowEntities(m).value, [])
    ensures EnsureNoShadowEntities(m).None? && EnsureNonNullPrimaryKeys(m).Some? ==>
      v == Failed(EnsureNonNullPrimaryKeys(m).value, ShadowKeyWarnings(m))
    ensures EnsureNoShadowEntities(m).None? && EnsureNonNullPrimaryKeys(m).None? ==>
      var c := ChainCheckOf(m, ShadowKeyWarnings(m));
      && (c.ChainFailed? ==> v == Failed(c.error, c.log) && ForeignKeyChainError(m, c.error))
      && (c.ChainPassed? ==> v == Passed(c.log) && roots == c.roots)
    ensures EnsureNoShadowEntities(m).None? ==> LogExtends(m, ShadowKeyWarnings(m), v.warnings)
    ensures v.Passed? ==>
      && (forall e :: 0 <= e < |m.entityTypes| ==> m.entityTypes[e].hasClrType)
      && (forall e :: 0 <= e < |m.entityTypes| ==> m.entityTypes[e].primaryKey.Some?)
      && (forall q: PropertyId :: q < |m.properties| && Dependent(m, q) ==> q in roots && ValidRoot(m, q, roots[q]))
    ensures Acyclic(m) && EnsureNoShadowEntities(m).None? && EnsureNonNullPrimaryKeys(m).None? ==>
      && (v.Passed? <==> ChainsWellRooted(m))
      && (ChainsWellRooted(m) && UniqueRoots(m) ==> v == Passed(ShadowKeyWarnings(m)))
  {
    roots := map[];
    var shadowEntity := EnsureNoShadowEntities(m);
    if shadowEntity.Some? {
      return Failed(shadowEntity.value, []), roots;
    }
    var warnings := EnsureNoShadowKeys(m, []);
    var missingKey := EnsureNonNullPrimaryKeys(m);
    if missingKey.Some? {
      return Failed(missingKey.value, warnings), roots;
    }
    assert warnings == ShadowKeyWarnings(m);
    ghost var c := ChainCheckOf(m, warnings);
    ChainCheckRoots(m, warnings);
    if Acyclic(m) {
      ChainCheckAcyclic(m, warnings);
    }
    var chainError;
    chainError, warnings, roots := EnsureValidForeignKeyChains(m, warnings);
    if chainError.Some? {
      assert c.ChainFailed?;
      return Failed(chainError.value, warnings), roots;
    }
    assert c.ChainPassed?;
    return Passed(warnings), roots;
  }
}
