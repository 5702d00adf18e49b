/**
 * The objects the Tinkerbell driver reads and writes, and the effect of each call it
 * makes on its collaborators (the hardware, template and workflow clients and the
 * Tinkerbell cluster's Kubernetes client).
 *
 * There are two clusters. The machine-controller cluster holds the pool of hardware
 * records that carry a claim (the workload's UID) and the userdata; the hardware client
 * lists them in a fixed order, so they are a sequence here. The Tinkerbell cluster holds
 * the hardware objects created for it, the templates and the workflows, each keyed by
 * namespace and name.
 *
 * Whether a call fails for reasons outside the model (transport, API server) is decided
 * by the environment: a call listed in the fault map fails with the listed cause, any
 * other call performs its declared effect. "Not found" is not injected; it arises only
 * where the object is absent.
 */
module TinkStore {
  import opened Outcome

  /** The text of an underlying Go error. */
  type Cause = string

  datatype StoreError = NotFound | Failed(cause: Cause)

  datatype NamespacedName = NamespacedName(namespace: string, name: string)

  /** A hardware record: its key, its claim (empty when unclaimed) and its userdata. */
  datatype Hardware = Hardware(ref: NamespacedName, id: string, userData: string)

  datatype Template = Template(ref: NamespacedName, osImageURL: string, hegelURL: string)

  datatype Workflow = Workflow(ref: NamespacedName, templateName: string, hardware: NamespacedName)

  /** One call the driver makes, with the arguments that identify it. */
  datatype Call =
    | GetHardware(ref: NamespacedName)
    | GetHardwareWithID(uid: string)
    | SetHardwareID(ref: NamespacedName, id: string)
    | SetHardwareUserData(ref: NamespacedName, userData: string)
    | CreateHardwareOnTinkCluster(hardware: Hardware)
    | GetTemplate(key: NamespacedName)
    | CreateTemplate(key: NamespacedName, osImageURL: string, hegelURL: string)
    | CreateWorkflow(name: string, templateName: string, hardware: Hardware)
    | DeleteWorkflow(name: string, namespace: string)
    | DeleteHardware(ref: NamespacedName)
    | DeleteTemplate(key: NamespacedName)

  /** The calls that fail, each with its cause. */
  type Faults = map<Call, Cause>

  datatype Store = Store(
    pool: seq<Hardware>,                               // machine-controller cluster
    tinkHardware: map<NamespacedName, Hardware>,       // Tinkerbell cluster
    templates: map<NamespacedName, Template>,
    workflows: map<NamespacedName, Workflow>)

  /** Every object on the Tinkerbell cluster is stored under its own name. */
  predicate KeyedByName(s: Store) {
    && (forall k :: k in s.tinkHardware ==> s.tinkHardware[k].ref == k)
    && (forall k :: k in s.templates ==> s.templates[k].ref == k)
    && (forall k :: k in s.workflows ==> s.workflows[k].ref == k)
  }

  /** A write's outcome: the store afterwards and what the call returned. */
  datatype Reply<+T> = Reply(store: Store, result: Result<T, StoreError>)

  // ---------------------------------------------------------------------------------
  // Searching the pool
  // ---------------------------------------------------------------------------------

  /** The position of the first record satisfying `p`. */
  function FirstWhere(pool: seq<Hardware>, p: Hardware -> bool): (r: Option<nat>)
    ensures r.Some? ==> r.value < |pool| && p(pool[r.value])
                        && forall j :: 0 <= j < r.value ==> !p(pool[j])
    ensures r.None? ==> forall j :: 0 <= j < |pool| ==> !p(pool[j])
  {
    if pool == [] then None
    else if p(pool[0]) then Some(0)
    else match FirstWhere(pool[1..], p)
      case None => None
      case Some(k) => Some(k + 1)
  }

  function IndexOfRef(pool: seq<Hardware>, ref: NamespacedName): Option<nat> {
    FirstWhere(pool, (hw: Hardware) => hw.ref == ref)
  }

  function IndexOfClaim(pool: seq<Hardware>, uid: string): Option<nat> {
    FirstWhere(pool, (hw: Hardware) => hw.id == uid)
  }

  /** No two records of the pool share a key. */
  predicate RefsUnique(pool: seq<Hardware>) {
    forall i, j :: 0 <= i < j < |pool| ==> pool[i].ref != pool[j].ref
  }

  /** Two pools whose records carry the same keys, position by position. */
  predicate SameRefs(p: seq<Hardware>, q: seq<Hardware>) {
    |p| == |q| && forall j :: 0 <= j < |p| ==> p[j].ref == q[j].ref
  }

  /** The first record satisfying `p` is at `i` exactly when `i` satisfies it and no earlier one does. */
  lemma FirstWhereIs(pool: seq<Hardware>, p: Hardware -> bool, i: nat)
    requires i < |pool| && p(pool[i])
    requires forall j :: 0 <= j < i ==> !p(pool[j])
    ensures FirstWhere(pool, p) == Some(i)
  {
  }

  /** A search by key sees only the keys. */
  lemma {:induction false} IndexOfRefSameRefs(p: seq<Hardware>, q: seq<Hardware>, ref: NamespacedName)
    requires SameRefs(p, q)
    ensures IndexOfRef(p, ref) == IndexOfRef(q, ref)
  {
    match IndexOfRef(p, ref)
    case None =>
      if IndexOfRef(q, ref).Some? {
        assert p[IndexOfRef(q, ref).value].ref == ref;
      }
    case Some(i) =>
      assert q[i].ref == ref;
      forall j | 0 <= j < i
        ensures q[j].ref != ref
      {
        assert p[j].ref != ref;
      }
      FirstWhereIs(q, (hw: Hardware) => hw.ref == ref, i);
  }

  /** Claiming a record and then attaching userdata rewrites that one record. */
  lemma ClaimThenUserData(pool: seq<Hardware>, ref: NamespacedName, i: nat, id: string, userData: string)
    requires IndexOfRef(pool, ref) == Some(i)
    ensures WithUserData(WithClaim(pool, ref, id), ref, userData) == pool[i := pool[i].(id := id, userData := userData)]
  {
    var claimed := WithClaim(pool, ref, id);
    assert SameRefs(pool, claimed);
    IndexOfRefSameRefs(pool, claimed, ref);
  }

  // ---------------------------------------------------------------------------------
  // Reads (no effect on the store)
  // ---------------------------------------------------------------------------------

  /** `HardwareClient.GetHardware`: the pool record with the given key. */
  function GetHardwareResult(s: Store, f: Faults, ref: NamespacedName): (r: Result<Hardware, StoreError>)
    ensures r.Ok? ==> r.value in s.pool && r.value.ref == ref
    ensures r == Err(NotFound) <==> GetHardware(ref) !in f && forall hw :: hw in s.pool ==> hw.ref != ref
  {
    if GetHardware(ref) in f then Err(Failed(f[GetHardware(ref)]))
    else match IndexOfRef(s.pool, ref)
      case None => Err(NotFound)
      case Some(i) => Ok(s.pool[i])
  }

  /** `HardwareClient.GetHardwareWithID`: the first pool record claimed by `uid`. */
  function GetHardwareWithIDResult(s: Store, f: Faults, uid: string): (r: Result<Hardware, StoreError>)
    ensures r.Ok? ==> r.value in s.pool && r.value.id == uid
    ensures r == Err(NotFound) <==> GetHardwareWithID(uid) !in f && forall hw :: hw in s.pool ==> hw.id != uid
  {
    if GetHardwareWithID(uid) in f then Err(Failed(f[GetHardwareWithID(uid)]))
    else match IndexOfClaim(s.pool, uid)
      case None => Err(NotFound)
      case Some(i) => Ok(s.pool[i])
  }

  /** `TinkClient.Get` of a template. */
  function GetTemplateResult(s: Store, f: Faults, key: NamespacedName): (r: Result<Template, StoreError>)
    ensures r.Ok? <==> GetTemplate(key) !in f && key in s.templates
    ensures r.Ok? ==> r.value == s.templates[key]
    ensures r == Err(NotFound) <==> GetTemplate(key) !in f && key !in s.templates
  {
    if GetTemplate(key) in f then Err(Failed(f[GetTemplate(key)]))
    else if key in s.templates then Ok(s.templates[key])
    else Err(NotFound)
  }

  // ---------------------------------------------------------------------------------
  // Writes
  // ---------------------------------------------------------------------------------

  /** The pool with the claim of the record at `ref` set to `id`; nothing else changes. */
  function WithClaim(pool: seq<Hardware>, ref: NamespacedName, id: string): (p: seq<Hardware>)
    ensures SameRefs(pool, p)
    ensures forall j :: 0 <= j < |pool| ==>
      p[j] == if IndexOfRef(pool, ref) == Some(j) then pool[j].(id := id) else pool[j]
  {
    match IndexOfRef(pool, ref)
    case None => pool
    case Some(i) => pool[i := pool[i].(id := id)]
  }

  /** The pool with the userdata of the record at `ref` set to `userData`; nothing else changes. */
  function WithUserData(pool: seq<Hardware>, ref: NamespacedName, userData: string): (p: seq<Hardware>)
    ensures SameRefs(pool, p)
    ensures forall j :: 0 <= j < |pool| ==>
      p[j] == if IndexOfRef(pool, ref) == Some(j) then pool[j].(userData := userData) else pool[j]
  {
    match IndexOfRef(pool, ref)
    case None => pool
    case Some(i) => pool[i := pool[i].(userData := userData)]
  }

  /** `HardwareClient.SetHardwareID`: writes the claim on the pool record. */
  function SetHardwareIDReply(s: Store, f: Faults, ref: NamespacedName, id: string): (r: Reply<()>)
    ensures r.result.Err? ==> r.store == s
    ensures r.result.Ok? <==> SetHardwareID(ref, id) !in f && IndexOfRef(s.pool, ref).Some?
    ensures r.store == s.(pool := r.store.pool)
    ensures SameRefs(s.pool, r.store.pool)
  {
    var c := SetHardwareID(ref, id);
    if c in f then Reply(s, Err(Failed(f[c])))
    else if IndexOfRef(s.pool, ref).None? then Reply(s, Err(NotFound))
    else Reply(s.(pool := WithClaim(s.pool, ref, id)), Ok(()))
  }

  /** `HardwareClient.SetHardwareUserData`: writes the userdata on the pool record. */
  function SetHardwareUserDataReply(s: Store, f: Faults, ref: NamespacedName, userData: string): (r: Reply<()>)
    ensures r.result.Err? ==> r.store == s
    ensures r.result.Ok? <==> SetHardwareUserData(ref, userData) !in f && IndexOfRef(s.pool, ref).Some?
    ensures r.store == s.(pool := r.store.pool)
    ensures SameRefs(s.pool, r.store.pool)
  {
    var c := SetHardwareUserData(ref, userData);
    if c in f then Reply(s, Err(Failed(f[c])))
    else if IndexOfRef(s.pool, ref).None? then Reply(s, Err(NotFound))
    else Reply(s.(pool := WithUserData(s.pool, ref, userData)), Ok(()))
  }

  /** `HardwareClient.CreateHardwareOnTinkCluster`: creates or replaces the Tinkerbell copy. */
  function CreateHardwareOnTinkClusterReply(s: Store, f: Faults, hw: Hardware): (r: Reply<()>)
    ensures r.result.Ok? <==> CreateHardwareOnTinkCluster(hw) !in f
    ensures r.result.Ok? ==> r.store.tinkHardware == s.tinkHardware[hw.ref := hw]
    ensures r.store == s.(tinkHardware := r.store.tinkHardware)
    ensures r.result.Err? ==> r.store == s
  {
    var c := CreateHardwareOnTinkCluster(hw);
    if c in f then Reply(s, Err(Failed(f[c])))
    else Reply(s.(tinkHardware := s.tinkHardware[hw.ref := hw]), Ok(()))
  }

  /** `TemplateClient.CreateTemplate`: the template named `key`, rendered for the two URLs. */
  function CreateTemplateReply(s: Store, f: Faults, key: NamespacedName, osImageURL: string, hegelURL: string)
    : (r: Reply<Template>)
    ensures r.result.Ok? <==> CreateTemplate(key, osImageURL, hegelURL) !in f
    ensures r.result.Ok? ==> r.result.value == Template(key, osImageURL, hegelURL)
                             && r.store.templates == s.templates[key := r.result.value]
    ensures r.store == s.(templates := r.store.templates)
    ensures r.result.Err? ==> r.store == s
  {
    var c := CreateTemplate(key, osImageURL, hegelURL);
    var t := Template(key, osImageURL, hegelURL);
    if c in f then Reply(s, Err(Failed(f[c])))
    else Reply(s.(templates := s.templates[key := t]), Ok(t))
  }

  /**
   * `WorkflowClient.CreateWorkflow`: a workflow binding the template to the hardware,
   * stored under the given name in the hardware's namespace.
   */
  function CreateWorkflowReply(s: Store, f: Faults, name: string, templateName: string, hw: Hardware)
    : (r: Reply<()>)
    ensures r.result.Ok? <==> CreateWorkflow(name, templateName, hw) !in f
    ensures r.result.Ok? ==> var key := NamespacedName(hw.ref.namespace, name);
      r.store.workflows == s.workflows[key := Workflow(key, templateName, hw.ref)]
    ensures r.store == s.(workflows := r.store.workflows)
    ensures r.result.Err? ==> r.store == s
  {
    var c := CreateWorkflow(name, templateName, hw);
    var key := NamespacedName(hw.ref.namespace, name);
    if c in f then Reply(s, Err(Failed(f[c])))
    else Reply(s.(workflows := s.workflows[key := Workflow(key, templateName, hw.ref)]), Ok(()))
  }

  /** `WorkflowClient.DeleteWorkflow`: removes the workflow; an absent one is no error. */
  function DeleteWorkflowReply(s: Store, f: Faults, name: string, namespace: string): (r: Reply<()>)
    ensures r.result.Ok? <==> DeleteWorkflow(name, namespace) !in f
    ensures r.result.Ok? ==> r.store.workflows == s.workflows - {NamespacedName(namespace, name)}
    ensures r.store == s.(workflows := r.store.workflows)
    ensures r.result.Err? ==> r.store == s
  {
    var c := DeleteWorkflow(name, namespace);
    if c in f then Reply(s, Err(Failed(f[c])))
    else Reply(s.(workflows := s.workflows - {NamespacedName(namespace, name)}), Ok(()))
  }

  /** `TinkClient.Delete` of a hardware object: a Kubernetes delete, so absence is `NotFound`. */
  function DeleteHardwareReply(s: Store, f: Faults, ref: NamespacedName): (r: Reply<()>)
    ensures r.result.Ok? <==> DeleteHardware(ref) !in f && ref in s.tinkHardware
    ensures r.result.Ok? ==> r.store.tinkHardware == s.tinkHardware - {ref}
    ensures r.store == s.(tinkHardware := r.store.tinkHardware)
    ensures r.result.Err? ==> r.store == s
  {
    var c := DeleteHardware(ref);
    if c in f then Reply(s, Err(Failed(f[c])))
    else if ref !in s.tinkHardware then Reply(s, Err(NotFound))
    else Reply(s.(tinkHardware := s.tinkHardware - {ref}), Ok(()))
  }

  /** `TemplateClient.Delete`: removes the template; an absent one is no error. */
  function DeleteTemplateReply(s: Store, f: Faults, key: NamespacedName): (r: Reply<()>)
    ensures r.result.Ok? <==> DeleteTemplate(key) !in f
    ensures r.result.Ok? ==> r.store.templates == s.templates - {key}
    ensures r.store == s.(templates := r.store.templates)
    ensures r.result.Err? ==> r.store == s
  {
    var c := DeleteTemplate(key);
    if c in f then Reply(s, Err(Failed(f[c])))
    else Reply(s.(templates := s.templates - {key}), Ok(()))
  }
}
