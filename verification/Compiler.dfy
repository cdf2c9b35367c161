/**
 Compiling an agent draft: every collection is sorted by a key that the configuration's own
 validators make identifying, so that the compiled form is canonical.
 */
module Compiler {
  import opened Sorting

  datatype Reference = Reference(name: string, version: string)

  datatype Binding = Binding(id: string, connector: string, version: string, operations: seq<string>)

  datatype PolicyOverride = PolicyOverride(action: string, identityLevel: nat, confirmation: bool, approval: bool)

  /** `fixed` stands for every field that compilation copies. */
  datatype Configuration = Configuration(
    capabilities: seq<Reference>, tools: seq<string>, actions: seq<string>,
    bindings: seq<Binding>, policies: seq<PolicyOverride>, fixed: string)

  datatype Draft = Draft(tenant: string, instance: string, id: string, number: nat, configuration: Configuration)

  datatype Spec = Spec(tenant: string, instance: string, version: string, number: nat, configuration: Configuration)

  // ---- The validators ----

  function ReferenceName(r: Reference): string { r.name }
  function BindingId(b: Binding): string { b.id }
  function PolicyAction(p: PolicyOverride): string { p.action }

  predicate Unique(keys: seq<string>) {
    forall i, k :: 0 <= i < k < |keys| ==> keys[i] != keys[k]
  }

  predicate Valid(c: Configuration) {
    && Unique(c.tools) && Unique(c.actions)
    && Unique(Mapped(c.capabilities, ReferenceName))
    && Unique(Mapped(c.bindings, BindingId))
    && Unique(Mapped(c.policies, PolicyAction))
    && forall k :: 0 <= k < |c.bindings| ==> Unique(c.bindings[k].operations)
  }

  // ---- The compiler ----

  function TextKey(s: string): Key { [s] }
  function ReferenceKey(r: Reference): Key { [r.name, r.version] }
  function BindingKey(b: Binding): Key { [b.connector, b.version, b.id] }
  function PolicyKey(p: PolicyOverride): Key { [p.action] }

  function SortedBinding(b: Binding): Binding {
    b.(operations := Sort(b.operations, TextKey))
  }

  function Compiled(c: Configuration): Configuration {
    Configuration(Sort(c.capabilities, ReferenceKey), Sort(c.tools, TextKey), Sort(c.actions, TextKey),
                  Mapped(Sort(c.bindings, BindingKey), SortedBinding), Sort(c.policies, PolicyKey), c.fixed)
  }

  function Compile(d: Draft): Spec {
    Spec(d.tenant, d.instance, d.id, d.number, Compiled(d.configuration))
  }

  // ---- The order-free reading of a configuration ----

  datatype LooseBinding = LooseBinding(id: string, connector: string, version: string, operations: multiset<string>)

  function Loosened(b: Binding): LooseBinding {
    LooseBinding(b.id, b.connector, b.version, multiset(b.operations))
  }

  /** Equal up to reordering any collection, and the operations inside a binding. */
  ghost predicate SameUpToOrder(a: Configuration, b: Configuration) {
    && multiset(a.capabilities) == multiset(b.capabilities)
    && multiset(a.tools) == multiset(b.tools) && multiset(a.actions) == multiset(b.actions)
    && multiset(Mapped(a.bindings, Loosened)) == multiset(Mapped(b.bindings, Loosened))
    && multiset(a.policies) == multiset(b.policies) && a.fixed == b.fixed
  }

  // ---- Keys identify items ----

  lemma UniqueIdentifies<T(!new)>(s: seq<T>, tag: T -> string, key: T -> Key)
    requires Unique(Mapped(s, tag))
    requires forall x, y :: key(x) == key(y) ==> tag(x) == tag(y)
    ensures KeysIdentify(s, key)
  {
    forall x, y | x in s && y in s && key(x) == key(y) ensures x == y {
      var i :| 0 <= i < |s| && s[i] == x;
      var k :| 0 <= k < |s| && s[k] == y;
      assert Mapped(s, tag)[i] == tag(x) && Mapped(s, tag)[k] == tag(y);
    }
  }

  lemma TextIdentifies(s: seq<string>)
    ensures KeysIdentify(s, TextKey)
  {
    forall x, y | x in s && y in s && TextKey(x) == TextKey(y) ensures x == y {
      assert TextKey(x)[0] == TextKey(y)[0];
    }
  }

  lemma ReferencesIdentify(s: seq<Reference>)
    ensures KeysIdentify(s, ReferenceKey)
  {
    forall x, y | x in s && y in s && ReferenceKey(x) == ReferenceKey(y) ensures x == y {
      assert ReferenceKey(x)[0] == ReferenceKey(y)[0] && ReferenceKey(x)[1] == ReferenceKey(y)[1];
    }
  }

  lemma BindingsIdentify(s: seq<Binding>)
    requires Unique(Mapped(s, BindingId))
    ensures KeysIdentify(s, BindingKey)
  {
    forall x, y | BindingKey(x) == BindingKey(y) ensures x.id == y.id {
      assert BindingKey(x)[2] == BindingKey(y)[2];
    }
    UniqueIdentifies(s, BindingId, BindingKey);
  }

  lemma PoliciesIdentify(s: seq<PolicyOverride>)
    requires Unique(Mapped(s, PolicyAction))
    ensures KeysIdentify(s, PolicyKey)
  {
    forall x, y | PolicyKey(x) == PolicyKey(y) ensures x.action == y.action {
      assert PolicyKey(x)[0] == PolicyKey(y)[0];
    }
    UniqueIdentifies(s, PolicyAction, PolicyKey);
  }

  // ---- Bindings are sorted twice ----

  /** Sorting the operations changes nothing but their order. */
  lemma SortedBindingLoosens(b: Binding, c: Binding)
    ensures Loosened(SortedBinding(b)) == Loosened(b)
    ensures Loosened(b) == Loosened(c) <==> SortedBinding(b) == SortedBinding(c)
  {
    SortOrders(b.operations, TextKey);
    TextIdentifies(b.operations);
    SortIsCanonical(b.operations, c.operations, TextKey);
    SortOrders(c.operations, TextKey);
  }

  /** Sorting the operations touches no key, so the sorted bindings are still in order ... */
  lemma SortedBindingsOrder(s: seq<Binding>)
    ensures Ordered(Mapped(Sort(s, BindingKey), SortedBinding), BindingKey)
  {
    SortOrders(s, BindingKey);
    MappedOrders(Sort(s, BindingKey), SortedBinding, BindingKey);
  }

  /** ... and identified. */
  lemma SortedBindingsIdentify(s: seq<Binding>)
    requires KeysIdentify(s, BindingKey)
    ensures KeysIdentify(Mapped(Sort(s, BindingKey), SortedBinding), BindingKey)
  {
    SortKeepsIdentity(s, BindingKey);
    MappedIdentifies(Sort(s, BindingKey), SortedBinding, BindingKey);
  }

  lemma SortedBindingsView(s: seq<Binding>)
    ensures multiset(Mapped(Mapped(Sort(s, BindingKey), SortedBinding), Loosened)) == multiset(Mapped(s, Loosened))
    ensures multiset(Mapped(Sort(s, BindingKey), SortedBinding)) == multiset(Mapped(s, SortedBinding))
  {
    var sorted := Sort(s, BindingKey);
    SortOrders(s, BindingKey);
    assert Mapped(sorted, (b: Binding) => b) == sorted && Mapped(s, (b: Binding) => b) == s;
    ViewsAgree(sorted, s, (b: Binding) => b, Loosened);
    ViewsAgree(sorted, s, (b: Binding) => b, SortedBinding);
    forall b ensures Loosened(SortedBinding(b)) == Loosened(b) { SortedBindingLoosens(b, b); }
    assert Mapped(Mapped(sorted, SortedBinding), Loosened) == Mapped(sorted, Loosened);
  }

  lemma BindingsAreCanonical(a: seq<Binding>, b: seq<Binding>)
    requires KeysIdentify(a, BindingKey)
    ensures Mapped(Sort(a, BindingKey), SortedBinding) == Mapped(Sort(b, BindingKey), SortedBinding)
      <==> multiset(Mapped(a, Loosened)) == multiset(Mapped(b, Loosened))
  {
    SortedBindingsView(a);
    SortedBindingsView(b);
    if multiset(Mapped(a, Loosened)) == multiset(Mapped(b, Loosened)) {
      forall x, y | x in a && y in b && Loosened(x) == Loosened(y) ensures SortedBinding(x) == SortedBinding(y) {
        SortedBindingLoosens(x, y);
      }
      ViewsAgree(a, b, Loosened, SortedBinding);
      SortedBindingsOrder(a);
      SortedBindingsIdentify(a);
      SortedBindingsOrder(b);
      OrderedIsUnique(Mapped(Sort(a, BindingKey), SortedBinding), Mapped(Sort(b, BindingKey), SortedBinding), BindingKey);
    }
  }

  // ---- The main results ----

  /**
   For a valid configuration the compiled form is canonical: two compile to the same, and hence to
   the same digest, exactly when they differ in order only.
   */
  lemma CompilationIsCanonical(a: Configuration, b: Configuration)
    requires Valid(a)
    ensures Compiled(a) == Compiled(b) <==> SameUpToOrder(a, b)
  {
    ReferencesIdentify(a.capabilities);
    SortIsCanonical(a.capabilities, b.capabilities, ReferenceKey);
    TextIdentifies(a.tools);
    SortIsCanonical(a.tools, b.tools, TextKey);
    TextIdentifies(a.actions);
    SortIsCanonical(a.actions, b.actions, TextKey);
    PoliciesIdentify(a.policies);
    SortIsCanonical(a.policies, b.policies, PolicyKey);
    BindingsIdentify(a.bindings);
    BindingsAreCanonical(a.bindings, b.bindings);
  }

  /** Compiling loses nothing but order. */
  lemma CompilingReorders(c: Configuration)
    ensures SameUpToOrder(c, Compiled(c))
  {
    SortOrders(c.capabilities, ReferenceKey);
    SortOrders(c.tools, TextKey);
    SortOrders(c.actions, TextKey);
    SortOrders(c.policies, PolicyKey);
    SortedBindingsView(c.bindings);
  }

  /** Compiling a compiled configuration changes nothing. */
  lemma CompilingTwice(c: Configuration)
    requires Valid(c)
    ensures Compiled(Compiled(c)) == Compiled(c)
  {
    CompilingReorders(c);
    CompilationIsCanonical(c, Compiled(c));
  }

  lemma {:induction false} UniqueCounts(s: seq<string>, x: string)
    requires Unique(s)
    ensures multiset(s)[x] <= 1
  {
    if s != [] {
      var init, last := s[..|s| - 1], s[|s| - 1];
      UniqueCounts(init, x);
      assert s == init + [last];
      if x == last { assert x !in init; }
    }
  }

  lemma ReorderingKeepsUnique(a: seq<string>, b: seq<string>)
    requires Unique(a) && multiset(a) == multiset(b)
    ensures Unique(b)
  {
    forall i, k | 0 <= i < k < |b| ensures b[i] != b[k] {
      UniqueCounts(a, b[i]);
      assert b == b[..k] + [b[k]] + b[k + 1..];
      assert b[..k][i] in multiset(b[..k]);
    }
  }

  /** Compilation rebuilds the configuration without running its validators; it still satisfies them. */
  lemma CompiledIsValid(c: Configuration)
    requires Valid(c)
    ensures Valid(Compiled(c))
  {
    var d := Compiled(c);
    CompilingReorders(c);
    ReorderingKeepsUnique(c.tools, d.tools);
    ReorderingKeepsUnique(c.actions, d.actions);
    SortedTagsUnique(c.capabilities, ReferenceName, ReferenceKey);
    SortedTagsUnique(c.policies, PolicyAction, PolicyKey);
    SortedTagsUnique(c.bindings, BindingId, BindingKey);
    IdsAreKept(Sort(c.bindings, BindingKey));
    CompiledOperationsUnique(c.bindings);
    SortOrders(c.bindings, BindingKey);
    SameSize(Sort(c.bindings, BindingKey), c.bindings);
  }

  lemma IdsAreKept(s: seq<Binding>)
    ensures Mapped(Mapped(s, SortedBinding), BindingId) == Mapped(s, BindingId)
  {
    var m := Mapped(s, SortedBinding);
    forall k | 0 <= k < |s| ensures Mapped(m, BindingId)[k] == Mapped(s, BindingId)[k] {
      assert BindingId(SortedBinding(s[k])) == BindingId(s[k]);
      assert Mapped(m, BindingId)[k] == BindingId(m[k]) && m[k] == SortedBinding(s[k]);
    }
  }

  lemma CompiledOperationsUnique(s: seq<Binding>)
    requires forall k :: 0 <= k < |s| ==> Unique(s[k].operations)
    ensures forall k :: 0 <= k < |s| ==>
      k < |Sort(s, BindingKey)| && Unique(SortedBinding(Sort(s, BindingKey)[k]).operations)
  {
    var sorted := Sort(s, BindingKey);
    SortOrders(s, BindingKey);
    SameSize(sorted, s);
    forall k | 0 <= k < |s| ensures Unique(SortedBinding(sorted[k]).operations) {
      assert sorted[k] in multiset(s);
      SortOrders(sorted[k].operations, TextKey);
      ReorderingKeepsUnique(sorted[k].operations, SortedBinding(sorted[k]).operations);
    }
  }

  lemma SortedTagsUnique<T(!new)>(s: seq<T>, tag: T -> string, key: T -> Key)
    requires Unique(Mapped(s, tag))
    ensures Unique(Mapped(Sort(s, key), tag))
  {
    SortOrders(s, key);
    assert Mapped(s, (x: T) => x) == s && Mapped(Sort(s, key), (x: T) => x) == Sort(s, key);
    ViewsAgree(s, Sort(s, key), (x: T) => x, tag);
    ReorderingKeepsUnique(Mapped(s, tag), Mapped(Sort(s, key), tag));
  }

  /** Drafts with the same identity compile to the same spec exactly when their configurations differ in order only. */
  lemma SpecsAreCanonical(a: Draft, b: Draft)
    requires Valid(a.configuration) && a == b.(configuration := a.configuration)
    ensures Compile(a) == Compile(b) <==> SameUpToOrder(a.configuration, b.configuration)
  {
    CompilationIsCanonical(a.configuration, b.configuration);
  }

  /** The validators are needed: two overrides of one action compile as given, whichever way round. */
  lemma DuplicateActionsAreNotCanonical(p: PolicyOverride, q: PolicyOverride, c: Configuration)
    requires p.action == q.action && p != q
    ensures SameUpToOrder(c.(policies := [p, q]), c.(policies := [q, p]))
    ensures Compiled(c.(policies := [p, q])) != Compiled(c.(policies := [q, p]))
  {
    KeyOrder(PolicyKey(p), PolicyKey(q), []);
    SortPair(p, q);
    SortPair(q, p);
    assert multiset([p, q]) == multiset([q, p]);
  }

  lemma SortPair(p: PolicyOverride, q: PolicyOverride)
    requires p.action == q.action
    ensures Sort([p, q], PolicyKey) == [p, q]
  {
    KeyOrder(PolicyKey(p), PolicyKey(q), []);
    assert [p, q][1..] == [q] && [q][1..] == [];
    assert Sort([q], PolicyKey) == [q];
  }
}
