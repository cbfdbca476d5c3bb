/**
 validateDelta: the immutable-field validator on the external cluster types of API
 version 2019-12-31-preview, with their struct tags.
 */
module DeltaValidation {
  import opened Wrappers
  import E = External
  import C = Conversion
  import opened Immutable

  // ---- the external types, as reflection sees them ----

  const STRING: TypeId := 0
  const INT: TypeId := 1
  const PROVISIONING_STATE: TypeId := 2
  const VM_SIZE: TypeId := 3
  const VISIBILITY: TypeId := 4
  const TAGS: TypeId := 5
  const CLUSTER_PROFILE: TypeId := 6
  const CONSOLE_PROFILE: TypeId := 7
  const SERVICE_PRINCIPAL_PROFILE: TypeId := 8
  const NETWORK_PROFILE: TypeId := 9
  const MASTER_PROFILE: TypeId := 10
  const WORKER_PROFILE: TypeId := 11
  const WORKER_PROFILES: TypeId := 12
  const APISERVER_PROFILE: TypeId := 13
  const INGRESS_PROFILE: TypeId := 14
  const INGRESS_PROFILES: TypeId := 15
  const PROPERTIES: TypeId := 16
  const CLUSTER: TypeId := 17
  const CLUSTER_POINTER: TypeId := 18

  function Plain(name: string, goName: string, typ: TypeId): Field {
    Field(name, goName, Tag.Immutable, typ)
  }

  function TypeOf(t: TypeId): TypeInfo {
    if t == STRING || t == PROVISIONING_STATE || t == VM_SIZE || t == VISIBILITY then StringType
    else if t == INT then ScalarType
    else if t == TAGS then MapType(STRING)
    else if t == CLUSTER_PROFILE then
      StructType([Plain("domain", "Domain", STRING), Plain("version", "Version", STRING), Plain("resourceGroupId", "ResourceGroupID", STRING)])
    else if t == CONSOLE_PROFILE then StructType([Plain("url", "URL", STRING)])
    else if t == SERVICE_PRINCIPAL_PROFILE then
      StructType([Plain("clientId", "ClientID", STRING), Plain("clientSecret", "ClientSecret", STRING)])
    else if t == NETWORK_PROFILE then
      StructType([Plain("podCidr", "PodCIDR", STRING), Plain("serviceCidr", "ServiceCIDR", STRING)])
    else if t == MASTER_PROFILE then
      StructType([Plain("vmSize", "VMSize", VM_SIZE), Plain("subnetId", "SubnetID", STRING)])
    else if t == WORKER_PROFILE then
      StructType([Plain("name", "Name", STRING), Plain("vmSize", "VMSize", VM_SIZE), Plain("diskSizeGB", "DiskSizeGB", INT),
                  Plain("subnetId", "SubnetID", STRING), Field("count", "Count", Mutable, INT)])
    else if t == WORKER_PROFILES then SliceType(WORKER_PROFILE)
    else if t == APISERVER_PROFILE then
      StructType([Plain("visibility", "Visibility", VISIBILITY), Plain("url", "URL", STRING), Plain("ip", "IP", STRING)])
    else if t == INGRESS_PROFILE then
      StructType([Plain("name", "Name", STRING), Plain("visibility", "Visibility", VISIBILITY), Plain("ip", "IP", STRING)])
    else if t == INGRESS_PROFILES then SliceType(INGRESS_PROFILE)
    else if t == PROPERTIES then
      StructType([Plain("provisioningState", "ProvisioningState", PROVISIONING_STATE),
                  Plain("clusterProfile", "ClusterProfile", CLUSTER_PROFILE),
                  Plain("consoleProfile", "ConsoleProfile", CONSOLE_PROFILE),
                  Plain("servicePrincipalProfile", "ServicePrincipalProfile", SERVICE_PRINCIPAL_PROFILE),
                  Plain("networkProfile", "NetworkProfile", NETWORK_PROFILE),
                  Plain("masterProfile", "MasterProfile", MASTER_PROFILE),
                  Plain("workerProfiles", "WorkerProfiles", WORKER_PROFILES),
                  Plain("apiserverProfile", "APIServerProfile", APISERVER_PROFILE),
                  Plain("ingressProfiles", "IngressProfiles", INGRESS_PROFILES)])
    else if t == CLUSTER then
      StructType([Field("id", "ID", IgnoreCase, STRING), Field("name", "Name", IgnoreCase, STRING), Field("type", "Type", IgnoreCase, STRING),
                  Plain("location", "Location", STRING), Field("tags", "Tags", Mutable, TAGS), Plain("properties", "Properties", PROPERTIES)])
    else if t == CLUSTER_POINTER then PointerType(CLUSTER)
    else OtherType
  }

  function EnvOf(fold: char -> char): Env {
    Env(TypeOf, fold)
  }

  // ---- external clusters as values ----

  function String(s: string): Value { Text(STRING, s) }

  function WorkerValue(p: E.WorkerProfile): Value {
    Record(WORKER_PROFILE, [String(p.name), Text(VM_SIZE, p.vmSize), Scalar(INT, p.diskSizeGB, false), String(p.subnetId), Scalar(INT, p.count, false)])
  }

  function IngressValue(p: E.IngressProfile): Value {
    Record(INGRESS_PROFILE, [String(p.name), Text(VISIBILITY, p.visibility), String(p.ip)])
  }

  function WorkersValue(ps: Option<seq<E.WorkerProfile>>): (v: Value)
    ensures v.typ == WORKER_PROFILES
  {
    List(WORKER_PROFILES, ps.None?, if ps.None? then [] else C.Map(WorkerValue, ps.value))
  }

  function IngressesValue(ps: Option<seq<E.IngressProfile>>): (v: Value)
    ensures v.typ == INGRESS_PROFILES
  {
    List(INGRESS_PROFILES, ps.None?, if ps.None? then [] else C.Map(IngressValue, ps.value))
  }

  function ClusterProfileValue(p: E.ClusterProfile): (v: Value)
    ensures v.typ == CLUSTER_PROFILE
  {
    Record(CLUSTER_PROFILE, [String(p.domain), String(p.version), String(p.resourceGroupId)])
  }

  function ConsoleValue(p: E.ConsoleProfile): (v: Value)
    ensures v.typ == CONSOLE_PROFILE
  {
    Record(CONSOLE_PROFILE, [String(p.url)])
  }

  function PrincipalValue(p: E.ServicePrincipalProfile): (v: Value)
    ensures v.typ == SERVICE_PRINCIPAL_PROFILE
  {
    Record(SERVICE_PRINCIPAL_PROFILE, [String(p.clientId), String(p.clientSecret)])
  }

  function NetworkValue(p: E.NetworkProfile): (v: Value)
    ensures v.typ == NETWORK_PROFILE
  {
    Record(NETWORK_PROFILE, [String(p.podCidr), String(p.serviceCidr)])
  }

  function MasterValue(p: E.MasterProfile): (v: Value)
    ensures v.typ == MASTER_PROFILE
  {
    Record(MASTER_PROFILE, [Text(VM_SIZE, p.vmSize), String(p.subnetId)])
  }

  function APIServerValue(p: E.APIServerProfile): (v: Value)
    ensures v.typ == APISERVER_PROFILE
  {
    Record(APISERVER_PROFILE, [Text(VISIBILITY, p.visibility), String(p.url), String(p.ip)])
  }

  function PropertiesValue(p: E.Properties): (v: Value)
    ensures v.typ == PROPERTIES
  {
    Record(PROPERTIES, [
      Text(PROVISIONING_STATE, p.provisioningState),
      ClusterProfileValue(p.clusterProfile),
      ConsoleValue(p.consoleProfile),
      PrincipalValue(p.servicePrincipalProfile),
      NetworkValue(p.networkProfile),
      MasterValue(p.masterProfile),
      WorkersValue(p.workerProfiles),
      APIServerValue(p.apiserverProfile),
      IngressesValue(p.ingressProfiles)])
  }


  // ---- profile by profile: the validator compares everything ----

  predicate Leaf(v: Value) {
    v.Text? || (v.Scalar? && !v.nan)
  }

  /** A struct of strings and numbers without tags. */
  ghost predicate Flat(env: Env, v: Value)
    requires Typed(env, v)
  {
    && v.Record?
    && (forall i :: 0 <= i < |v.fields| ==> env.types(v.typ).fields[i].tag.Immutable? && Leaf(v.fields[i]))
  }

  function TagsOf(fields: seq<Field>): seq<Tag> {
    seq(|fields|, i requires 0 <= i < |fields| => fields[i].tag)
  }

  function TypesOf(fields: seq<Field>): seq<TypeId> {
    seq(|fields|, i requires 0 <= i < |fields| => fields[i].typ)
  }

  lemma TypedRecord(env: Env, v: Value)
    requires v.Record? && env.types(v.typ).StructType? && |v.fields| == |TypesOf(env.types(v.typ).fields)|
    requires forall i :: 0 <= i < |v.fields| ==> v.fields[i].typ == TypesOf(env.types(v.typ).fields)[i] && Typed(env, v.fields[i])
    ensures Typed(env, v)
  {}

  lemma LeafSame(env: Env, x: Value, y: Value)
    requires Typed(env, x) && Typed(env, y) && Leaf(x) && Leaf(y) && x.typ == y.typ
    ensures Same(env, x, y, false) <==> x == y
  {}

  lemma FlatSame(env: Env, v: Value, w: Value)
    requires Typed(env, v) && Typed(env, w) && Flat(env, v) && Flat(env, w) && v.typ == w.typ
    ensures Same(env, v, w, false) <==> v.fields == w.fields
  {
    SameRecord(env, v, w, false);
    forall i | 0 <= i < |v.fields| ensures SameField(env, v, w, i, false) <==> v.fields[i] == w.fields[i] {
      LeafSame(env, v.fields[i], w.fields[i]);
    }
  }

  /** What the comparison of field `i` of two structs comes down to. */
  lemma FieldIs(env: Env, v: Value, w: Value, i: nat, tag: Tag, x: Value, y: Value)
    requires Typed(env, v) && Typed(env, w) && v.Record? && w.Record? && v.typ == w.typ && i < |v.fields|
    requires v.fields[i] == x && w.fields[i] == y && TagsOf(env.types(v.typ).fields)[i] == tag
    ensures Typed(env, x) && Typed(env, y) && x.typ == y.typ
    ensures SameField(env, v, w, i, false) <==> tag.Mutable? || Same(env, x, y, tag.IgnoreCase?)
  {}

  lemma ClusterProfileSame(env: Env, p: E.ClusterProfile, q: E.ClusterProfile)
    requires env.types == TypeOf
    ensures Typed(env, ClusterProfileValue(p)) && Typed(env, ClusterProfileValue(q))
    ensures Same(env, ClusterProfileValue(p), ClusterProfileValue(q), false) <==> p == q
  {
    FlatSame(env, ClusterProfileValue(p), ClusterProfileValue(q));
    assert p == q <==> ClusterProfileValue(p).fields == ClusterProfileValue(q).fields by {
      var v, w := ClusterProfileValue(p).fields, ClusterProfileValue(q).fields;
      assert v == w ==> v[0] == w[0] && v[1] == w[1] && v[2] == w[2];
    }
  }

  lemma ConsoleSame(env: Env, p: E.ConsoleProfile, q: E.ConsoleProfile)
    requires env.types == TypeOf
    ensures Typed(env, ConsoleValue(p)) && Typed(env, ConsoleValue(q))
    ensures Same(env, ConsoleValue(p), ConsoleValue(q), false) <==> p == q
  {
    FlatSame(env, ConsoleValue(p), ConsoleValue(q));
    assert p == q <==> ConsoleValue(p).fields == ConsoleValue(q).fields by {
      var v, w := ConsoleValue(p).fields, ConsoleValue(q).fields;
      assert v == w ==> v[0] == w[0];
    }
  }

  lemma PrincipalSame(env: Env, p: E.ServicePrincipalProfile, q: E.ServicePrincipalProfile)
    requires env.types == TypeOf
    ensures Typed(env, PrincipalValue(p)) && Typed(env, PrincipalValue(q))
    ensures Same(env, PrincipalValue(p), PrincipalValue(q), false) <==> p == q
  {
    FlatSame(env, PrincipalValue(p), PrincipalValue(q));
    assert p == q <==> PrincipalValue(p).fields == PrincipalValue(q).fields by {
      var v, w := PrincipalValue(p).fields, PrincipalValue(q).fields;
      assert v == w ==> v[0] == w[0] && v[1] == w[1];
    }
  }

  lemma NetworkSame(env: Env, p: E.NetworkProfile, q: E.NetworkProfile)
    requires env.types == TypeOf
    ensures Typed(env, NetworkValue(p)) && Typed(env, NetworkValue(q))
    ensures Same(env, NetworkValue(p), NetworkValue(q), false) <==> p == q
  {
    FlatSame(env, NetworkValue(p), NetworkValue(q));
    assert p == q <==> NetworkValue(p).fields == NetworkValue(q).fields by {
      var v, w := NetworkValue(p).fields, NetworkValue(q).fields;
      assert v == w ==> v[0] == w[0] && v[1] == w[1];
    }
  }

  lemma MasterSame(env: Env, p: E.MasterProfile, q: E.MasterProfile)
    requires env.types == TypeOf
    ensures Typed(env, MasterValue(p)) && Typed(env, MasterValue(q))
    ensures Same(env, MasterValue(p), MasterValue(q), false) <==> p == q
  {
    FlatSame(env, MasterValue(p), MasterValue(q));
    assert p == q <==> MasterValue(p).fields == MasterValue(q).fields by {
      var v, w := MasterValue(p).fields, MasterValue(q).fields;
      assert v == w ==> v[0] == w[0] && v[1] == w[1];
    }
  }

  lemma APIServerSame(env: Env, p: E.APIServerProfile, q: E.APIServerProfile)
    requires env.types == TypeOf
    ensures Typed(env, APIServerValue(p)) && Typed(env, APIServerValue(q))
    ensures Same(env, APIServerValue(p), APIServerValue(q), false) <==> p == q
  {
    FlatSame(env, APIServerValue(p), APIServerValue(q));
    assert p == q <==> APIServerValue(p).fields == APIServerValue(q).fields by {
      var v, w := APIServerValue(p).fields, APIServerValue(q).fields;
      assert v == w ==> v[0] == w[0] && v[1] == w[1] && v[2] == w[2];
    }
  }

  lemma IngressSame(env: Env, p: E.IngressProfile, q: E.IngressProfile)
    requires env.types == TypeOf
    ensures Typed(env, IngressValue(p)) && Typed(env, IngressValue(q))
    ensures Same(env, IngressValue(p), IngressValue(q), false) <==> p == q
  {
    FlatSame(env, IngressValue(p), IngressValue(q));
    assert p == q <==> IngressValue(p).fields == IngressValue(q).fields by {
      var v, w := IngressValue(p).fields, IngressValue(q).fields;
      assert v == w ==> v[0] == w[0] && v[1] == w[1] && v[2] == w[2];
    }
  }

  predicate SameWorker(p: E.WorkerProfile, q: E.WorkerProfile) {
    p.(count := q.count) == q
  }

  lemma WorkerTyped(env: Env, p: E.WorkerProfile)
    requires env.types == TypeOf
    ensures Typed(env, WorkerValue(p))
  {}

  lemma WorkerTags(env: Env)
    requires env.types == TypeOf
    ensures env.types(WORKER_PROFILE).StructType?
    ensures TagsOf(env.types(WORKER_PROFILE).fields) == [Tag.Immutable, Tag.Immutable, Tag.Immutable, Tag.Immutable, Mutable]
  {}

  lemma WorkerSame(env: Env, p: E.WorkerProfile, q: E.WorkerProfile)
    requires env.types == TypeOf
    ensures Typed(env, WorkerValue(p)) && Typed(env, WorkerValue(q))
    ensures Same(env, WorkerValue(p), WorkerValue(q), false) <==> SameWorker(p, q)
  {
    hide TypeOf, Typed, Same, SameField;
    var v, w := WorkerValue(p), WorkerValue(q);
    WorkerTyped(env, p);
    WorkerTyped(env, q);
    WorkerTags(env);
    SameRecord(env, v, w, false);
    forall i | 0 <= i < 4 ensures SameField(env, v, w, i, false) <==> v.fields[i] == w.fields[i] {
      FieldIs(env, v, w, i, Tag.Immutable, v.fields[i], w.fields[i]);
      LeafSame(env, v.fields[i], w.fields[i]);
    }
    FieldIs(env, v, w, 4, Mutable, v.fields[4], w.fields[4]);
    assert SameField(env, v, w, 0, false) && SameField(env, v, w, 1, false) && SameField(env, v, w, 2, false) && SameField(env, v, w, 3, false)
      <==> p.name == q.name && p.vmSize == q.vmSize && p.diskSizeGB == q.diskSizeGB && p.subnetId == q.subnetId;
  }

  predicate SameWorkers(ps: Option<seq<E.WorkerProfile>>, qs: Option<seq<E.WorkerProfile>>) {
    && ps.Some? == qs.Some?
    && (ps.Some? ==>
          && |ps.value| == |qs.value|
          && forall i :: 0 <= i < |ps.value| ==> SameWorker(ps.value[i], qs.value[i]))
  }

  lemma WorkersSame(env: Env, ps: Option<seq<E.WorkerProfile>>, qs: Option<seq<E.WorkerProfile>>)
    requires env.types == TypeOf
    ensures Typed(env, WorkersValue(ps)) && Typed(env, WorkersValue(qs))
    ensures Same(env, WorkersValue(ps), WorkersValue(qs), false) <==> SameWorkers(ps, qs)
  {
    forall p ensures Typed(env, WorkerValue(p)) { WorkerSame(env, p, p); }
    var v, w := WorkersValue(ps), WorkersValue(qs);
    SameList(env, v, w, false);
    forall i | 0 <= i < |v.items| && |v.items| == |w.items|
      ensures SameItem(env, v, w, i, false) <==> SameWorker(ps.value[i], qs.value[i])
    {
      WorkerSame(env, ps.value[i], qs.value[i]);
    }
  }

  lemma IngressesSame(env: Env, ps: Option<seq<E.IngressProfile>>, qs: Option<seq<E.IngressProfile>>)
    requires env.types == TypeOf
    ensures Typed(env, IngressesValue(ps)) && Typed(env, IngressesValue(qs))
    ensures Same(env, IngressesValue(ps), IngressesValue(qs), false) <==> ps == qs
  {
    forall p ensures Typed(env, IngressValue(p)) { IngressSame(env, p, p); }
    var v, w := IngressesValue(ps), IngressesValue(qs);
    SameList(env, v, w, false);
    forall i | 0 <= i < |v.items| && |v.items| == |w.items|
      ensures SameItem(env, v, w, i, false) <==> ps.value[i] == qs.value[i]
    {
      IngressSame(env, ps.value[i], qs.value[i]);
    }
    if ps.Some? && qs.Some? && |ps.value| == |qs.value| {
      assert ps.value == qs.value <==> forall i :: 0 <= i < |v.items| ==> ps.value[i] == qs.value[i];
    }
  }

  predicate SameProperties(p: E.Properties, q: E.Properties) {
    p.(workerProfiles := q.workerProfiles) == q && SameWorkers(p.workerProfiles, q.workerProfiles)
  }

  lemma PropertiesTags(env: Env)
    requires env.types == TypeOf
    ensures env.types(PROPERTIES).StructType?
    ensures TagsOf(env.types(PROPERTIES).fields) == seq(9, _ => Tag.Immutable)
    ensures TypesOf(env.types(PROPERTIES).fields) == [
      PROVISIONING_STATE, CLUSTER_PROFILE, CONSOLE_PROFILE, SERVICE_PRINCIPAL_PROFILE, NETWORK_PROFILE,
      MASTER_PROFILE, WORKER_PROFILES, APISERVER_PROFILE, INGRESS_PROFILES]
  {}

  lemma StateTyped(env: Env, s: string)
    requires env.types == TypeOf
    ensures Typed(env, Text(PROVISIONING_STATE, s))
  {}

  lemma PropertiesTyped(env: Env, p: E.Properties)
    requires env.types == TypeOf
    ensures Typed(env, PropertiesValue(p))
  {
    hide Typed, TypeOf, Same, TypesOf, TagsOf, ClusterProfileValue, ConsoleValue, PrincipalValue, NetworkValue, MasterValue,
      WorkersValue, APIServerValue, IngressesValue;
    StateTyped(env, p.provisioningState);
    ClusterProfileSame(env, p.clusterProfile, p.clusterProfile);
    ConsoleSame(env, p.consoleProfile, p.consoleProfile);
    PrincipalSame(env, p.servicePrincipalProfile, p.servicePrincipalProfile);
    NetworkSame(env, p.networkProfile, p.networkProfile);
    MasterSame(env, p.masterProfile, p.masterProfile);
    WorkersSame(env, p.workerProfiles, p.workerProfiles);
    APIServerSame(env, p.apiserverProfile, p.apiserverProfile);
    IngressesSame(env, p.ingressProfiles, p.ingressProfiles);
    PropertiesTags(env);
    TypedRecord(env, PropertiesValue(p));
  }

  lemma PropertiesFields(env: Env, v: Value, w: Value)
    requires env.types == TypeOf && Typed(env, v) && Typed(env, w) && v.Record? && w.Record?
    requires v.typ == w.typ == PROPERTIES && |v.fields| == |w.fields| == 9
    ensures forall i :: 0 <= i < 9 ==>
      Typed(env, v.fields[i]) && Typed(env, w.fields[i]) && (SameField(env, v, w, i, false) <==> Same(env, v.fields[i], w.fields[i], false))
  {
    PropertiesTags(env);
    hide Typed, TypeOf, Same, SameField;
    forall i | 0 <= i < 9
      ensures Typed(env, v.fields[i]) && Typed(env, w.fields[i])
      ensures SameField(env, v, w, i, false) <==> Same(env, v.fields[i], w.fields[i], false)
    {
      FieldIs(env, v, w, i, Tag.Immutable, v.fields[i], w.fields[i]);
    }
  }

  lemma PropertiesSame(env: Env, p: E.Properties, q: E.Properties)
    requires env.types == TypeOf
    ensures Typed(env, PropertiesValue(p)) && Typed(env, PropertiesValue(q))
    ensures Same(env, PropertiesValue(p), PropertiesValue(q), false) <==> SameProperties(p, q)
  {
    hide TypeOf, Typed, Same, SameField, SameWorkers, ClusterProfileValue, ConsoleValue, PrincipalValue, NetworkValue, MasterValue,
      WorkersValue, APIServerValue, IngressesValue;
    var v, w := PropertiesValue(p), PropertiesValue(q);
    PropertiesTyped(env, p);
    PropertiesTyped(env, q);
    SameRecord(env, v, w, false);
    PropertiesFields(env, v, w);
    LeafSame(env, v.fields[0], w.fields[0]);
    ClusterProfileSame(env, p.clusterProfile, q.clusterProfile);
    ConsoleSame(env, p.consoleProfile, q.consoleProfile);
    PrincipalSame(env, p.servicePrincipalProfile, q.servicePrincipalProfile);
    NetworkSame(env, p.networkProfile, q.networkProfile);
    MasterSame(env, p.masterProfile, q.masterProfile);
    WorkersSame(env, p.workerProfiles, q.workerProfiles);
    APIServerSame(env, p.apiserverProfile, q.apiserverProfile);
    IngressesSame(env, p.ingressProfiles, q.ingressProfiles);
    assert SameField(env, v, w, 0, false) && SameField(env, v, w, 1, false) && SameField(env, v, w, 2, false)
        && SameField(env, v, w, 3, false) && SameField(env, v, w, 4, false) && SameField(env, v, w, 5, false)
        && SameField(env, v, w, 6, false) && SameField(env, v, w, 7, false) && SameField(env, v, w, 8, false)
      <==> SameProperties(p, q);
  }

  /** `order` lists the keys of the map, each once, as the iteration meets them. */
  ghost predicate Enumerates(order: seq<string>, tags: Option<map<string, string>>) {
    && (tags.None? ==> order == [])
    && (tags.Some? ==> forall k :: k in order <==> k in tags.value)
    && forall i, j :: 0 <= i < j < |order| ==> order[i] != order[j]
  }

  function TagsValue(tags: Option<map<string, string>>, order: seq<string>): (v: Value)
    requires Enumerates(order, tags)
    ensures v.typ == TAGS
  {
    Dict(TAGS, tags.None?, seq(|order|, i requires 0 <= i < |order| => Entry(TextKey(order[i]), String(tags.value[order[i]]))))
  }

  /** A cluster, its tags in the order of the iteration. */
  function ClusterValue(c: E.Cluster, order: seq<string>): (v: Value)
    requires Enumerates(order, c.tags)
    ensures v.typ == CLUSTER
  {
    Record(CLUSTER, [String(c.id), String(c.name), String(c.typ), String(c.location), TagsValue(c.tags, order), PropertiesValue(c.properties)])
  }

  /** The pointer that the validator is given. */
  function PointerTo(v: Value): Value { Ref(CLUSTER_POINTER, Some(v)) }

  ghost predicate SameCluster(env: Env, c: E.Cluster, d: E.Cluster) {
    && EqualFold(env, c.id, d.id) && EqualFold(env, c.name, d.name) && EqualFold(env, c.typ, d.typ)
    && c.location == d.location
    && SameProperties(c.properties, d.properties)
  }

  lemma TagsTyped(env: Env, tags: Option<map<string, string>>, order: seq<string>)
    requires env.types == TypeOf && Enumerates(order, tags)
    ensures Typed(env, TagsValue(tags, order))
  {}

  lemma ClusterTyped(env: Env, c: E.Cluster, order: seq<string>)
    requires env.types == TypeOf && Enumerates(order, c.tags)
    ensures Typed(env, ClusterValue(c, order))
  {
    hide PropertiesValue;
    PropertiesTyped(env, c.properties);
    TagsTyped(env, c.tags, order);
    TypedRecord(env, ClusterValue(c, order));
  }

  lemma ClusterTags(env: Env)
    requires env.types == TypeOf
    ensures env.types(CLUSTER).StructType?
    ensures TagsOf(env.types(CLUSTER).fields) == [IgnoreCase, IgnoreCase, IgnoreCase, Tag.Immutable, Mutable, Tag.Immutable]
  {}

  lemma FoldedSame(env: Env, s: string, t: string)
    requires env.types == TypeOf
    ensures Typed(env, String(s)) && Typed(env, String(t))
    ensures Same(env, String(s), String(t), true) <==> EqualFold(env, s, t)
  {
    FoldedEqual(env, s, t);
  }

  lemma ClusterSame(env: Env, c: E.Cluster, d: E.Cluster, order: seq<string>, order': seq<string>)
    requires env.types == TypeOf && Enumerates(order, c.tags) && Enumerates(order', d.tags)
    ensures Typed(env, ClusterValue(c, order)) && Typed(env, ClusterValue(d, order'))
    ensures Same(env, ClusterValue(c, order), ClusterValue(d, order'), false) <==> SameCluster(env, c, d)
  {
    hide TypeOf, Typed, Same, SameField, SameProperties, PropertiesValue, TagsValue, EqualFold;
    var v, w := ClusterValue(c, order), ClusterValue(d, order');
    ClusterTyped(env, c, order);
    ClusterTyped(env, d, order');
    ClusterTags(env);
    SameRecord(env, v, w, false);
    FieldIs(env, v, w, 0, IgnoreCase, String(c.id), String(d.id));
    FieldIs(env, v, w, 1, IgnoreCase, String(c.name), String(d.name));
    FieldIs(env, v, w, 2, IgnoreCase, String(c.typ), String(d.typ));
    FieldIs(env, v, w, 3, Tag.Immutable, String(c.location), String(d.location));
    FieldIs(env, v, w, 4, Mutable, v.fields[4], w.fields[4]);
    FieldIs(env, v, w, 5, Tag.Immutable, PropertiesValue(c.properties), PropertiesValue(d.properties));
    FoldedSame(env, c.id, d.id);
    FoldedSame(env, c.name, d.name);
    FoldedSame(env, c.typ, d.typ);
    LeafSame(env, String(c.location), String(d.location));
    PropertiesSame(env, c.properties, d.properties);
    assert SameCluster(env, c, d) <==> forall i :: 0 <= i < 6 ==> SameField(env, v, w, i, false);
  }

  lemma PointerTyped(env: Env, v: Value)
    requires env.types == TypeOf && Typed(env, v) && v.typ == CLUSTER
    ensures Typed(env, PointerTo(v))
  {}

  /** validateDelta: immutable.Validate on the two clusters. */
  lemma DeltaAccepts(env: Env, c: E.Cluster, d: E.Cluster, order: seq<string>, order': seq<string>)
    requires env.types == TypeOf && Enumerates(order, c.tags) && Enumerates(order', d.tags)
    ensures Typed(env, PointerTo(ClusterValue(c, order))) && Typed(env, PointerTo(ClusterValue(d, order')))
    ensures Accepts(env, PointerTo(ClusterValue(c, order)), PointerTo(ClusterValue(d, order'))) <==> SameCluster(env, c, d)
  {
    ClusterSame(env, c, d, order, order');
    hide TypeOf, Same, ClusterValue, SameCluster;
    var v, w := ClusterValue(c, order), ClusterValue(d, order');
    PointerTyped(env, v);
    PointerTyped(env, w);
    AcceptsIffSame(env, [], v, w, false);
    assert Validate(env, [], PointerTo(v), PointerTo(w), false) == Validate(env, [], v, w, false);
  }
}
