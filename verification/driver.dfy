/**
 * The Tinkerbell bare-metal driver: its four lifecycle operations over the store of
 * `TinkStore`. `GetServer` and `Validate` only read, and are functions. Provisioning and
 * deprovisioning are straight-line sequences of calls that change the store and stop at
 * the first failure. Each is specified by a function (`Provision`, `Deprovision`) giving
 * the new store, the calls made in order and the result. The `Driver` class holds the
 * store and the trace of calls and implements them as methods proved against those
 * functions.
 */
module TinkerbellDriver {
  import opened Outcome
  import opened TinkStore

  /** Templates live in this namespace, named after the workload. */
  const TemplateNamespace: string := "tink-stack"
  /** Deprovisioning derives the workflow's name from the hardware's name with this suffix. */
  const WorkflowSuffix: string := "-workflow"

  /** The identity of the workload (the Machine object). */
  datatype ObjectMeta = ObjectMeta(name: string, uid: string)

  /** The provider specification, opaque to the driver. */
  type RawExtension = string

  /** The driver's settings, fixed when it is built. */
  datatype Settings = Settings(clusterName: string, osImageURL: string, hegelURL: string,
                               hardwareRef: NamespacedName)

  /**
   * How an operation fails. `Returned` is a collaborator's error passed back unchanged;
   * the others wrap it with the step that failed. (The Go message for a failed template
   * deletion reuses the wording of the hardware-ID reset; the steps are told apart here.)
   */
  datatype DriverError =
    | Returned(cause: StoreError)
    | GetTemplateFailed(cause: StoreError)
    | DeleteWorkflowFailed(workflow: string, cause: StoreError)
    | DeleteHardwareFailed(hardware: string, cause: StoreError)
    | ResetHardwareIDFailed(hardware: string, cause: StoreError)
    | DeleteTemplateFailed(hardware: string, cause: StoreError)

  /** An operation's outcome: the store afterwards, the calls made in order, the result. */
  datatype Run<+T> = Run(store: Store, calls: seq<Call>, result: Result<T, DriverError>)

  function TemplateKey(meta: ObjectMeta): NamespacedName {
    NamespacedName(TemplateNamespace, meta.name)
  }

  function WorkflowName(hw: Hardware): string {
    hw.ref.name + WorkflowSuffix
  }

  // ---------------------------------------------------------------------------------
  // GetServer and Validate
  // ---------------------------------------------------------------------------------

  /** The hardware claimed by the workload, found by its UID. */
  function GetServer(s: Store, f: Faults, meta: ObjectMeta): (r: Result<Hardware, DriverError>)
    ensures r.Ok? ==> r.value in s.pool && r.value.id == meta.uid
    ensures r.Err? ==> r.error.Returned?
    ensures r == Err(Returned(NotFound)) <==>
      GetHardwareWithID(meta.uid) !in f && forall hw :: hw in s.pool ==> hw.id != meta.uid
  {
    match GetHardwareWithIDResult(s, f, meta.uid)
    case Err(e) => Err(Returned(e))
    case Ok(hw) => Ok(hw)
  }

  /** Accepts every provider specification. */
  function Validate(spec: RawExtension): (r: Result<(), DriverError>)
    ensures r.Ok?
  {
    Ok(())
  }

  // ---------------------------------------------------------------------------------
  // Provisioning
  // ---------------------------------------------------------------------------------

  /**
   * Steps 2-4 of provisioning, on the fetched hardware `hw`: claim it for `uid`, attach
   * the userdata, create it on the Tinkerbell cluster. On success the result is the
   * claimed copy the driver holds.
   */
  function Claim(s: Store, f: Faults, hw: Hardware, uid: string, userdata: string): Run<Hardware> {
    var r2 := SetHardwareIDReply(s, f, hw.ref, uid);
    if r2.result.Err? then Run(r2.store, [SetHardwareID(hw.ref, uid)], Err(Returned(r2.result.error)))
    else
      var r3 := SetHardwareUserDataReply(r2.store, f, hw.ref, userdata);
      var calls := [SetHardwareID(hw.ref, uid)] + [SetHardwareUserData(hw.ref, userdata)];
      if r3.result.Err? then Run(r3.store, calls, Err(Returned(r3.result.error)))
      else
        var claimed := hw.(id := uid, userData := userdata);
        var r4 := CreateHardwareOnTinkClusterReply(r3.store, f, claimed);
        var calls' := calls + [CreateHardwareOnTinkCluster(claimed)];
        if r4.result.Err? then Run(r4.store, calls', Err(Returned(r4.result.error)))
        else Run(r4.store, calls', Ok(claimed))
  }

  /** Step 5: look the template up; create it only when the lookup says it is not found. */
  function EnsureTemplate(s: Store, f: Faults, d: Settings, key: NamespacedName): Run<Template> {
    match GetTemplateResult(s, f, key)
    case Ok(t) => Run(s, [GetTemplate(key)], Ok(t))
    case Err(NotFound) =>
      var r := CreateTemplateReply(s, f, key, d.osImageURL, d.hegelURL);
      var calls := [GetTemplate(key), CreateTemplate(key, d.osImageURL, d.hegelURL)];
      (match r.result
       case Err(e) => Run(r.store, calls, Err(Returned(e)))
       case Ok(t) => Run(r.store, calls, Ok(t)))
    case Err(e) => Run(s, [GetTemplate(key)], Err(GetTemplateFailed(e)))
  }

  /** `run`, preceded by the calls `before`. */
  function After<T>(before: seq<Call>, run: Run<T>): Run<T> {
    run.(calls := before + run.calls)
  }

  /** Step 6: the workflow binding the claimed hardware to the template. */
  function BindWorkflow(s: Store, f: Faults, server: Hardware, templateName: string): Run<Hardware> {
    var r := CreateWorkflowReply(s, f, server.ref.name, templateName, server);
    var calls := [CreateWorkflow(server.ref.name, templateName, server)];
    if r.result.Err? then Run(r.store, calls, Err(Returned(r.result.error)))
    else Run(r.store, calls, Ok(server))
  }

  /** Steps 5-6, once the hardware is claimed. */
  function ProvisionClaimed(s: Store, f: Faults, d: Settings, meta: ObjectMeta, server: Hardware): Run<Hardware> {
    var tmpl := EnsureTemplate(s, f, d, TemplateKey(meta));
    if tmpl.result.Err? then Run(tmpl.store, tmpl.calls, Err(tmpl.result.error))
    else After(tmpl.calls, BindWorkflow(tmpl.store, f, server, tmpl.result.value.ref.name))
  }

  /**
   * `ProvisionServer`: a server returned is the configured hardware, claimed by the
   * workload and carrying its userdata.
   */
  function Provision(s: Store, f: Faults, d: Settings, meta: ObjectMeta, userdata: string): (r: Run<Hardware>)
    ensures r.result.Ok? ==> r.result.value.ref == d.hardwareRef && r.result.value.id == meta.uid
                             && r.result.value.userData == userdata
  {
    var c1 := GetHardware(d.hardwareRef);
    match GetHardwareResult(s, f, d.hardwareRef)
    case Err(e) => Run(s, [c1], Err(Returned(e)))
    case Ok(hw) =>
      var claim := Claim(s, f, hw, meta.uid, userdata);
      if claim.result.Err? then After([c1], claim)
      else After([c1] + claim.calls, ProvisionClaimed(claim.store, f, d, meta, claim.result.value))
  }

  // ---------------------------------------------------------------------------------
  // Deprovisioning
  // ---------------------------------------------------------------------------------

  /**
   * The steps after the hardware `hw` claimed by the workload has been found, the calls
   * so far being `before`.
   */
  function Teardown(s: Store, f: Faults, hw: Hardware, meta: ObjectMeta, before: seq<Call>): Run<()> {
    var wf := WorkflowName(hw);
    var r2 := DeleteWorkflowReply(s, f, wf, hw.ref.namespace);
    var calls2 := before + [DeleteWorkflow(wf, hw.ref.namespace)];
    if r2.result.Err? then Run(r2.store, calls2, Err(DeleteWorkflowFailed(wf, r2.result.error)))
    else
      var r3 := DeleteHardwareReply(r2.store, f, hw.ref);
      var calls3 := calls2 + [DeleteHardware(hw.ref)];
      if r3.result.Err? then Run(r3.store, calls3, Err(DeleteHardwareFailed(hw.ref.name, r3.result.error)))
      else
        var r4 := SetHardwareIDReply(r3.store, f, hw.ref, "");
        var calls4 := calls3 + [SetHardwareID(hw.ref, "")];
        if r4.result.Err? then Run(r4.store, calls4, Err(ResetHardwareIDFailed(hw.ref.name, r4.result.error)))
        else
          var r5 := DeleteTemplateReply(r4.store, f, TemplateKey(meta));
          var calls5 := calls4 + [DeleteTemplate(TemplateKey(meta))];
          if r5.result.Err? then Run(r5.store, calls5, Err(DeleteTemplateFailed(hw.ref.name, r5.result.error)))
          else Run(r5.store, calls5, Ok(()))
  }

  /**
   * `DeprovisionServer`: the template is deleted only by a run that succeeds; a run
   * that fails leaves it.
   */
  function Deprovision(s: Store, f: Faults, meta: ObjectMeta): (r: Run<()>)
    ensures r.result.Ok? ==> TemplateKey(meta) !in r.store.templates
    ensures r.result.Err? ==> r.store.templates == s.templates
  {
    var c1 := GetHardwareWithID(meta.uid);
    match GetHardwareWithIDResult(s, f, meta.uid)
    case Err(e) => Run(s, [c1], Err(Returned(e)))
    case Ok(hw) => Teardown(s, f, hw, meta, [c1])
  }

  /** Regrouping a trace that grew in two steps. */
  lemma Concat3(a: seq<Call>, b: seq<Call>, c: seq<Call>)
    ensures (a + b) + c == a + (b + c)
  {
  }

  // ---------------------------------------------------------------------------------
  // The driver object
  // ---------------------------------------------------------------------------------

  /**
   * The driver with the store it acts on. The store's fields change only through the
   * collaborator methods below, each of which also appends its call to `trace`.
   */
  class Driver {
    const settings: Settings
    const faults: Faults
    var pool: seq<Hardware>
    var tinkHardware: map<NamespacedName, Hardware>
    var templates: map<NamespacedName, Template>
    var workflows: map<NamespacedName, Workflow>
    var trace: seq<Call>

    function State(): Store
      reads this
    {
      Store(pool, tinkHardware, templates, workflows)
    }

    constructor (settings: Settings, faults: Faults, initial: Store)
      ensures this.settings == settings && this.faults == faults
      ensures State() == initial && trace == []
    {
      this.settings := settings;
      this.faults := faults;
      pool, tinkHardware, templates, workflows := initial.pool, initial.tinkHardware,
        initial.templates, initial.workflows;
      trace := [];
    }

    /** Makes `next` the store and records `c`. */
    method Commit(c: Call, next: Store)
      modifies this
      ensures State() == next && trace == old(trace) + [c]
    {
      pool, tinkHardware, templates, workflows := next.pool, next.tinkHardware, next.templates, next.workflows;
      trace := trace + [c];
    }

    // Collaborator calls.

    method GetHardware(ref: NamespacedName) returns (r: Result<Hardware, StoreError>)
      modifies this
      ensures State() == old(State()) && trace == old(trace) + [Call.GetHardware(ref)]
      ensures r == GetHardwareResult(old(State()), faults, ref)
    {
      r := GetHardwareResult(State(), faults, ref);
      Commit(Call.GetHardware(ref), State());
    }

    method GetHardwareWithID(uid: string) returns (r: Result<Hardware, StoreError>)
      modifies this
      ensures State() == old(State()) && trace == old(trace) + [Call.GetHardwareWithID(uid)]
      ensures r == GetHardwareWithIDResult(old(State()), faults, uid)
    {
      r := GetHardwareWithIDResult(State(), faults, uid);
      Commit(Call.GetHardwareWithID(uid), State());
    }

    method SetHardwareID(hw: Hardware, id: string) returns (r: Result<(), StoreError>)
      modifies this
      ensures var reply := SetHardwareIDReply(old(State()), faults, hw.ref, id);
        State() == reply.store && r == reply.result
      ensures trace == old(trace) + [Call.SetHardwareID(hw.ref, id)]
    {
      var reply := SetHardwareIDReply(State(), faults, hw.ref, id);
      Commit(Call.SetHardwareID(hw.ref, id), reply.store);
      r := reply.result;
    }

    method SetHardwareUserData(hw: Hardware, userData: string) returns (r: Result<(), StoreError>)
      modifies this
      ensures var reply := SetHardwareUserDataReply(old(State()), faults, hw.ref, userData);
        State() == reply.store && r == reply.result
      ensures trace == old(trace) + [Call.SetHardwareUserData(hw.ref, userData)]
    {
      var reply := SetHardwareUserDataReply(State(), faults, hw.ref, userData);
      Commit(Call.SetHardwareUserData(hw.ref, userData), reply.store);
      r := reply.result;
    }

    method CreateHardwareOnTinkCluster(hw: Hardware) returns (r: Result<(), StoreError>)
      modifies this
      ensures var reply := CreateHardwareOnTinkClusterReply(old(State()), faults, hw);
        State() == reply.store && r == reply.result
      ensures trace == old(trace) + [Call.CreateHardwareOnTinkCluster(hw)]
    {
      var reply := CreateHardwareOnTinkClusterReply(State(), faults, hw);
      Commit(Call.CreateHardwareOnTinkCluster(hw), reply.store);
      r := reply.result;
    }

    method GetTemplate(key: NamespacedName) returns (r: Result<Template, StoreError>)
      modifies this
      ensures State() == old(State()) && trace == old(trace) + [Call.GetTemplate(key)]
      ensures r == GetTemplateResult(old(State()), faults, key)
    {
      r := GetTemplateResult(State(), faults, key);
      Commit(Call.GetTemplate(key), State());
    }

    method CreateTemplate(key: NamespacedName, osImageURL: string, hegelURL: string)
      returns (r: Result<Template, StoreError>)
      modifies this
      ensures var reply := CreateTemplateReply(old(State()), faults, key, osImageURL, hegelURL);
        State() == reply.store && r == reply.result
      ensures trace == old(trace) + [Call.CreateTemplate(key, osImageURL, hegelURL)]
    {
      var reply := CreateTemplateReply(State(), faults, key, osImageURL, hegelURL);
      Commit(Call.CreateTemplate(key, osImageURL, hegelURL), reply.store);
      r := reply.result;
    }

    method CreateWorkflow(name: string, templateName: string, hw: Hardware) returns (r: Result<(), StoreError>)
      modifies this
      ensures var reply := CreateWorkflowReply(old(State()), faults, name, templateName, hw);
        State() == reply.store && r == reply.result
      ensures trace == old(trace) + [Call.CreateWorkflow(name, templateName, hw)]
    {
      var reply := CreateWorkflowReply(State(), faults, name, templateName, hw);
      Commit(Call.CreateWorkflow(name, templateName, hw), reply.store);
      r := reply.result;
    }

    method DeleteWorkflow(name: string, namespace: string) returns (r: Result<(), StoreError>)
      modifies this
      ensures var reply := DeleteWorkflowReply(old(State()), faults, name, namespace);
        State() == reply.store && r == reply.result
      ensures trace == old(trace) + [Call.DeleteWorkflow(name, namespace)]
    {
      var reply := DeleteWorkflowReply(State(), faults, name, namespace);
      Commit(Call.DeleteWorkflow(name, namespace), reply.store);
      r := reply.result;
    }

    /** `TinkClient.Delete` of the hardware object. */
    method DeleteHardware(hw: Hardware) returns (r: Result<(), StoreError>)
      modifies this
      ensures var reply := DeleteHardwareReply(old(State()), faults, hw.ref);
        State() == reply.store && r == reply.result
      ensures trace == old(trace) + [Call.DeleteHardware(hw.ref)]
    {
      var reply := DeleteHardwareReply(State(), faults, hw.ref);
      Commit(Call.DeleteHardware(hw.ref), reply.store);
      r := reply.result;
    }

    /** `TemplateClient.Delete`. */
    method DeleteTemplate(key: NamespacedName) returns (r: Result<(), StoreError>)
      modifies this
      ensures var reply := DeleteTemplateReply(old(State()), faults, key);
        State() == reply.store && r == reply.result
      ensures trace == old(trace) + [Call.DeleteTemplate(key)]
    {
      var reply := DeleteTemplateReply(State(), faults, key);
      Commit(Call.DeleteTemplate(key), reply.store);
      r := reply.result;
    }

    // The lifecycle operations.

    method ProvisionServer(meta: ObjectMeta, ext: RawExtension, userdata: string)
      returns (r: Result<Hardware, DriverError>)
      modifies this
      ensures var run := Provision(old(State()), faults, settings, meta, userdata);
        State() == run.store && trace == old(trace) + run.calls && r == run.result
    {
      ghost var t0 := trace;
      var fetched := GetHardware(settings.hardwareRef);
      if fetched.Err? {
        return Err(Returned(fetched.error));
      }
      ghost var t1 := trace;
      var hardware := ClaimHardware(fetched.value, meta.uid, userdata);
      ghost var claimCalls := trace[|t1|..];
      Concat3(t0, [Call.GetHardware(settings.hardwareRef)], claimCalls);
      if hardware.Err? {
        return Err(hardware.error);
      }
      ghost var t2 := trace;
      r := FinishProvisioning(meta, hardware.value);
      Concat3(t0, [Call.GetHardware(settings.hardwareRef)] + claimCalls, trace[|t2|..]);
    }

    /** Steps 5-6 of `ProvisionServer`, once the hardware is claimed. */
    method FinishProvisioning(meta: ObjectMeta, server: Hardware) returns (r: Result<Hardware, DriverError>)
      modifies this
      ensures var run := ProvisionClaimed(old(State()), faults, settings, meta, server);
        State() == run.store && trace == old(trace) + run.calls && r == run.result
    {
      var template := FindOrCreateTemplate(TemplateKey(meta));
      if template.Err? {
        return Err(template.error);
      }
      ghost var t1 := trace;
      var err := CreateWorkflow(server.ref.name, template.value.ref.name, server);
      assert trace == old(trace) + (t1[|old(trace)|..] + [Call.CreateWorkflow(server.ref.name, template.value.ref.name, server)]);
      if err.Err? {
        return Err(Returned(err.error));
      }
      return Ok(server);
    }

    /** Steps 2-4 of `ProvisionServer`, on the hardware it fetched. */
    method ClaimHardware(fetched: Hardware, uid: string, userdata: string) returns (r: Result<Hardware, DriverError>)
      modifies this
      ensures var run := Claim(old(State()), faults, fetched, uid, userdata);
        State() == run.store && trace == old(trace) + run.calls && r == run.result
    {
      ghost var t0 := trace;
      var hardware := fetched;
      var err := SetHardwareID(hardware, uid);
      ghost var calls := [Call.SetHardwareID(fetched.ref, uid)];
      if err.Err? {
        return Err(Returned(err.error));
      }
      hardware := hardware.(id := uid);

      err := SetHardwareUserData(hardware, userdata);
      Concat3(t0, calls, [Call.SetHardwareUserData(fetched.ref, userdata)]);
      calls := calls + [Call.SetHardwareUserData(fetched.ref, userdata)];
      if err.Err? {
        return Err(Returned(err.error));
      }
      hardware := hardware.(userData := userdata);

      err := CreateHardwareOnTinkCluster(hardware);
      Concat3(t0, calls, [Call.CreateHardwareOnTinkCluster(hardware)]);
      if err.Err? {
        return Err(Returned(err.error));
      }
      return Ok(hardware);
    }

    /** Step 5 of `ProvisionServer`: the template is created only if the lookup says NotFound. */
    method FindOrCreateTemplate(key: NamespacedName) returns (r: Result<Template, DriverError>)
      modifies this
      ensures var run := EnsureTemplate(old(State()), faults, settings, key);
        State() == run.store && trace == old(trace) + run.calls && r == run.result
    {
      var template := GetTemplate(key);
      if template.Err? {
        if template.error != NotFound {
          return Err(GetTemplateFailed(template.error));
        }
        template := CreateTemplate(key, settings.osImageURL, settings.hegelURL);
        if template.Err? {
          return Err(Returned(template.error));
        }
      }
      return Ok(template.value);
    }

    method DeprovisionServer(meta: ObjectMeta) returns (r: Result<(), DriverError>)
      modifies this
      ensures var run := Deprovision(old(State()), faults, meta);
        State() == run.store && trace == old(trace) + run.calls && r == run.result
    {
      ghost var t0 := trace;
      var found := GetHardwareWithID(meta.uid);
      ghost var calls := [Call.GetHardwareWithID(meta.uid)];
      if found.Err? {
        return Err(Returned(found.error));
      }
      var target := found.value;

      var workflowName := WorkflowName(target);
      var err := DeleteWorkflow(workflowName, target.ref.namespace);
      Concat3(t0, calls, [Call.DeleteWorkflow(workflowName, target.ref.namespace)]);
      calls := calls + [Call.DeleteWorkflow(workflowName, target.ref.namespace)];
      if err.Err? {
        return Err(DeleteWorkflowFailed(workflowName, err.error));
      }

      err := DeleteHardware(target);
      Concat3(t0, calls, [Call.DeleteHardware(target.ref)]);
      calls := calls + [Call.DeleteHardware(target.ref)];
      if err.Err? {
        return Err(DeleteHardwareFailed(target.ref.name, err.error));
      }

      err := SetHardwareID(target, "");
      Concat3(t0, calls, [Call.SetHardwareID(target.ref, "")]);
      calls := calls + [Call.SetHardwareID(target.ref, "")];
      if err.Err? {
        return Err(ResetHardwareIDFailed(target.ref.name, err.error));
      }

      err := DeleteTemplate(TemplateKey(meta));
      Concat3(t0, calls, [Call.DeleteTemplate(TemplateKey(meta))]);
      if err.Err? {
        return Err(DeleteTemplateFailed(target.ref.name, err.error));
      }
      return Ok(());
    }
  }
}
