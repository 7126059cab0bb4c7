/** Node labels: the "k=v,k=v" scale-from-zero annotation, and the labels a MachineDeployment hands to its nodes. */
module Labels {
  import opened Common
  import opened Text

  /** The label domains Cluster API propagates to nodes. */
  datatype Domains = Domains(rolePrefix: string, restriction: string, managed: string)

  // Cluster API (api/v1beta1), which defines the names, is not part of this model.
  const CLUSTER_API := Domains("node-role.kubernetes.io", "node-restriction.kubernetes.io", "node.cluster.x-k8s.io")

  /** One "k=v" item overrides what came before; anything without "=" is skipped. */
  function WithItem(labels: map<string, string>, item: string): map<string, string> {
    var kv := SplitN2(item, '=');
    if |kv| == 2 then labels[kv[0] := kv[1]] else labels
  }

  function FromItems(items: seq<string>): map<string, string> {
    if items == [] then map[] else WithItem(FromItems(items[..|items| - 1]), items[|items| - 1])
  }

  function LabelsOf(annotation: string): map<string, string> { FromItems(Split(annotation, ',')) }

  method LabelsFromScaleFromZeroAnnotation(annotation: string) returns (labels: map<string, string>)
    ensures labels == LabelsOf(annotation)
  {
    labels := map[];
    var items := Split(annotation, ',');
    for i := 0 to |items|
      invariant labels == FromItems(items[..i])
    {
      assert items[..i + 1][..i] == items[..i];
      var kv := SplitN2(items[i], '=');
      if |kv| == 2 {
        labels := labels[kv[0] := kv[1]];
      }
    }
    assert items[..|items|] == items;
  }

  // ----- the format

  /** Can be written down: no ',' or '=' in a key, no ',' in a value. */
  predicate Writable(labels: map<string, string>) {
    forall k | k in labels :: ',' !in k && '=' !in k && ',' !in labels[k]
  }

  /** The labels as comma-joined items, in the given order of keys. */
  function Render(labels: map<string, string>, order: seq<string>): string
    requires forall k | k in order :: k in labels
  {
    if order == [] then ""
    else
      var k := order[|order| - 1];
      if |order| == 1 then Item(k, labels[k]) else Render(labels, order[..|order| - 1]) + "," + Item(k, labels[k])
  }

  function Item(k: string, v: string): string { k + "=" + v }

  lemma {:induction false} FromItemsConcat(a: seq<string>, b: seq<string>)
    ensures FromItems(a + b) == FromItems(a) + FromItems(b)
  {
    if b == [] {
      assert a + b == a;
    } else {
      var front := b[..|b| - 1];
      assert (a + b)[..|a + b| - 1] == a + front;
      FromItemsConcat(a, front);
    }
  }

  /** Joining two annotations overrides the first with the second, for all strings;
      so of two items with one key, the later counts. */
  lemma JoinOverrides(a: string, b: string)
    ensures LabelsOf(a + "," + b) == LabelsOf(a) + LabelsOf(b)
  {
    SplitConcat(a, ',', b);
    FromItemsConcat(Split(a, ','), Split(b, ','));
  }

  lemma OneItem(k: string, v: string)
    requires ',' !in k && '=' !in k && ',' !in v
    ensures LabelsOf(Item(k, v)) == map[k := v]
  {
    SplitNone(Item(k, v), ',');
    SplitFirst(k, '=', v);
    assert FromItems([Item(k, v)][..0]) == map[];
  }

  function Chosen(labels: map<string, string>, order: seq<string>): map<string, string> {
    map k | k in labels && k in order :: labels[k]
  }

  lemma NothingRendered()
    ensures LabelsOf("") == map[]
  {
  }

  lemma ChosenGrows(labels: map<string, string>, front: seq<string>, k: string)
    requires k in labels
    ensures Chosen(labels, front + [k]) == Chosen(labels, front) + map[k := labels[k]]
  {
  }

  lemma {:induction false} RenderedParses(labels: map<string, string>, order: seq<string>)
    requires Writable(labels) && forall k | k in order :: k in labels
    ensures LabelsOf(Render(labels, order)) == Chosen(labels, order)
  {
    if order == [] {
      NothingRendered();
    } else {
      var front, k := order[..|order| - 1], order[|order| - 1];
      assert order == front + [k];
      ChosenGrows(labels, front, k);
      OneItem(k, labels[k]);
      if front != [] {
        RenderedParses(labels, front);
        JoinOverrides(Render(labels, front), Item(k, labels[k]));
      }
    }
  }

  lemma {:induction false} ItemsAreWritable(items: seq<string>)
    requires forall i | i in items :: ',' !in i
    ensures Writable(FromItems(items))
  {
    if items != [] {
      var item := items[|items| - 1];
      ItemsAreWritable(items[..|items| - 1]);
      var i := Find(item, '=');
      assert forall c | c in item[..i] :: c in item;
    }
  }

  /**
   Round trip: written in any order that covers the keys, labels are read back
   exactly when they are writable.
   */
  lemma RoundTripIff(labels: map<string, string>, order: seq<string>)
    requires forall k :: k in order <==> k in labels
    ensures LabelsOf(Render(labels, order)) == labels <==> Writable(labels)
  {
    if Writable(labels) {
      RenderedParses(labels, order);
      assert Chosen(labels, order) == labels;
    }
    ItemsAreWritable(Split(Render(labels, order), ','));
  }

  // ----- merging

  predicate HasSuffix(s: string, suffix: string) {
    |suffix| <= |s| && s[|s| - |suffix|..] == suffix
  }

  predicate InDomain(name: string, domain: string) { name == domain || HasSuffix(name, "." + domain) }

  /** Propagated from a MachineDeployment's template to its nodes. */
  predicate Managed(d: Domains, key: string) {
    var name := Split(key, '/')[0];
    name == d.rolePrefix || InDomain(name, d.restriction) || InDomain(name, d.managed)
  }

  method ManagedNodeLabelsFromLabels(d: Domains, labels: map<string, string>) returns (managed: map<string, string>)
    ensures managed == map k | k in labels && Managed(d, k) :: labels[k]
  {
    managed := map[];
    var todo := labels.Keys;
    while todo != {}
      invariant todo <= labels.Keys
      invariant managed == map k | k in labels && k !in todo && Managed(d, k) :: labels[k]
    {
      // Go's map iteration order is not specified.
      var key :| key in todo;
      todo := todo - {key};
      var name := Split(key, '/')[0];
      if name == d.rolePrefix {
        managed := managed[key := labels[key]];
      }
      if InDomain(name, d.restriction) {
        managed := managed[key := labels[key]];
      }
      if InDomain(name, d.managed) {
        managed := managed[key := labels[key]];
      }
    }
  }

  /** Copies `over` into `labels`, entry by entry, in any order. */
  method Overlay(base: map<string, string>, over: map<string, string>) returns (labels: map<string, string>)
    ensures labels == base + over
  {
    labels := base;
    var todo := over.Keys;
    while todo != {}
      invariant todo <= over.Keys
      invariant labels.Keys == base.Keys + (over.Keys - todo)
      invariant forall k | k in labels :: labels[k] == if k in over && k !in todo then over[k] else base[k]
    {
      var k :| k in todo;
      todo := todo - {k};
      labels := labels[k := over[k]];
    }
  }

  /** The template's managed labels, overridden by the annotation's. */
  function NodeLabels(d: Domains, template: Option<map<string, string>>, annotation: Option<string>)
    : map<string, string>
  {
    (if template.Some? then map k | k in template.value && Managed(d, k) :: template.value[k] else map[]) +
    (if annotation.Some? then LabelsOf(annotation.value) else map[])
  }

  /** Whatever order the maps are walked in: the annotation's labels, and under them
      the managed labels of the template. */
  method NodeLabelsFromMachineDeployment(d: Domains, template: Option<map<string, string>>, annotation: Option<string>)
    returns (labels: map<string, string>)
    ensures labels == NodeLabels(d, template, annotation)
    ensures forall k :: k in labels <==>
      (annotation.Some? && k in LabelsOf(annotation.value)) || (template.Some? && k in template.value && Managed(d, k))
    ensures forall k | k in labels ::
      labels[k] ==
        if annotation.Some? && k in LabelsOf(annotation.value) then LabelsOf(annotation.value)[k] else template.value[k]
  {
    labels := map[];
    if template.Some? {
      labels := ManagedNodeLabelsFromLabels(d, template.value);
    }
    if annotation.Some? {
      var over := LabelsFromScaleFromZeroAnnotation(annotation.value);
      labels := Overlay(labels, over);
    }
  }

  /** A label domain, or a subdomain of it. */
  ghost predicate Within(name: string, domain: string) { name == domain || exists p :: name == p + "." + domain }

  lemma InDomainIff(name: string, domain: string)
    ensures InDomain(name, domain) <==> Within(name, domain)
  {
    if HasSuffix(name, "." + domain) {
      var p := name[..|name| - |"." + domain|];
      assert name == p + ("." + domain);
      assert name == p + "." + domain;
    }
    forall p | name == p + "." + domain
      ensures HasSuffix(name, "." + domain)
    {
      assert name == p + ("." + domain);
    }
  }

  /** A key is propagated exactly if what stands before its first slash, or the whole of a
      key without one, is the role prefix or within one of the two other domains. */
  lemma ManagedIff(d: Domains, name: string, rest: string)
    requires '/' !in name
    ensures Managed(d, name) <==> Propagated(d, name)
    ensures Managed(d, name + "/" + rest) <==> Propagated(d, name)
  {
    SplitNone(name, '/');
    SplitFirst(name, '/', rest);
    InDomainIff(name, d.restriction);
    InDomainIff(name, d.managed);
  }

  ghost predicate Propagated(d: Domains, name: string) {
    name == d.rolePrefix || Within(name, d.restriction) || Within(name, d.managed)
  }

  /** An item without "=" adds nothing; only the first "=" of an item separates. */
  lemma ItemsWithoutLabels(annotation: string, item: string)
    requires ',' !in item && '=' !in item
    ensures LabelsOf(annotation + "," + item) == LabelsOf(annotation) && LabelsOf(item) == map[]
  {
    SplitNone(item, ',');
    SplitNone(item, '=');
    assert FromItems([item][..0]) == map[];
    JoinOverrides(annotation, item);
    assert LabelsOf(annotation) + map[] == LabelsOf(annotation);
  }
}
