/**
 * What provisioning and deprovisioning promise, stated over the functions that specify
 * the `Driver` methods: the fixed order of calls, stopping at the first failure, the
 * template created only when the lookup says it is missing, the returned server being the
 * claimed hardware, and deprovisioning undoing the claim.
 */
module DriverProperties {
  import opened Outcome
  import opened TinkStore
  import opened TinkerbellDriver

  /** No call of `plan` fails. */
  predicate NoFault(plan: seq<Call>, f: Faults) {
    forall j :: 0 <= j < |plan| ==> plan[j] !in f
  }

  /** The call at `k` is the first of `plan` to fail. */
  predicate FirstFault(plan: seq<Call>, f: Faults, k: nat) {
    k < |plan| && plan[k] in f && forall j :: 0 <= j < k ==> plan[j] !in f
  }

  /** A plan in which some call fails has a first failing call. */
  lemma {:induction false} SomeFirstFault(plan: seq<Call>, f: Faults) returns (k: nat)
    requires !NoFault(plan, f)
    ensures FirstFault(plan, f, k)
  {
    if plan[0] in f {
      k := 0;
    } else {
      assert !NoFault(plan[1..], f) by {
        var j :| 0 <= j < |plan| && plan[j] in f;
        assert plan[1..][j - 1] == plan[j];
      }
      var k' := SomeFirstFault(plan[1..], f);
      k := k' + 1;
      forall j | 0 <= j < k
        ensures plan[j] !in f
      {
        if j > 0 {
          assert plan[j] == plan[1..][j - 1];
        }
      }
    }
  }

  // ---------------------------------------------------------------------------------
  // Provisioning, phase by phase
  // ---------------------------------------------------------------------------------

  /** Steps 2-4: claim, userdata, copy to the Tinkerbell cluster. */
  function ClaimPlan(hw: Hardware, uid: string, userdata: string): seq<Call> {
    var claimed := hw.(id := uid, userData := userdata);
    [SetHardwareID(hw.ref, uid), SetHardwareUserData(hw.ref, userdata), CreateHardwareOnTinkCluster(claimed)]
  }

  /** Step 5: the lookup, and the creation when the template is missing. */
  function TemplatePlan(s: Store, d: Settings, meta: ObjectMeta): seq<Call> {
    var key := TemplateKey(meta);
    [GetTemplate(key)] + (if key in s.templates then [] else [CreateTemplate(key, d.osImageURL, d.hegelURL)])
  }

  /** The template provisioning ends up with when nothing fails. */
  function TemplateAfter(s: Store, d: Settings, meta: ObjectMeta): Template {
    var key := TemplateKey(meta);
    if key in s.templates then s.templates[key] else Template(key, d.osImageURL, d.hegelURL)
  }

  /** Claiming with no failure rewrites the record in the pool and copies it to the Tinkerbell cluster. */
  lemma ClaimSucceeds(s: Store, f: Faults, hw: Hardware, i: nat, uid: string, userdata: string)
    requires IndexOfRef(s.pool, hw.ref) == Some(i) && hw == s.pool[i]
    requires NoFault(ClaimPlan(hw, uid, userdata), f)
    ensures var claimed := hw.(id := uid, userData := userdata);
      Claim(s, f, hw, uid, userdata)
      == Run(s.(pool := s.pool[i := claimed], tinkHardware := s.tinkHardware[hw.ref := claimed]),
             ClaimPlan(hw, uid, userdata), Ok(claimed))
  {
    var plan := ClaimPlan(hw, uid, userdata);
    assert plan[0] !in f && plan[1] !in f && plan[2] !in f;
    var r2 := SetHardwareIDReply(s, f, hw.ref, uid);
    ClaimThenUserData(s.pool, hw.ref, i, uid, userdata);
    assert IndexOfRef(r2.store.pool, hw.ref).Some? by {
      IndexOfRefSameRefs(s.pool, r2.store.pool, hw.ref);
    }
  }

  /** Claiming stops at its first failing call and returns that call's error. */
  lemma ClaimStops(s: Store, f: Faults, hw: Hardware, i: nat, uid: string, userdata: string, k: nat)
    requires IndexOfRef(s.pool, hw.ref) == Some(i) && hw == s.pool[i]
    requires FirstFault(ClaimPlan(hw, uid, userdata), f, k)
    ensures var run := Claim(s, f, hw, uid, userdata);
      var plan := ClaimPlan(hw, uid, userdata);
      run.calls == plan[..k + 1] && run.result == Err(Returned(Failed(f[plan[k]])))
      && run.store.workflows == s.workflows && run.store.templates == s.templates
  {
    var plan := ClaimPlan(hw, uid, userdata);
    if k == 0 {
      assert plan[..1] == [SetHardwareID(hw.ref, uid)];
    } else {
      var r2 := SetHardwareIDReply(s, f, hw.ref, uid);
      assert plan[0] !in f;
      assert IndexOfRef(r2.store.pool, hw.ref).Some? by {
        IndexOfRefSameRefs(s.pool, r2.store.pool, hw.ref);
      }
      if k == 1 {
        assert plan[..2] == [SetHardwareID(hw.ref, uid)] + [SetHardwareUserData(hw.ref, userdata)];
      } else {
        assert plan[1] !in f;
        assert plan[..3] == plan;
      }
    }
  }

  /** The template step touches nothing but the templates, and never replaces an existing one. */
  lemma TemplateFrame(s: Store, f: Faults, d: Settings, meta: ObjectMeta)
    ensures var run := EnsureTemplate(s, f, d, TemplateKey(meta));
      run.store == s.(templates := run.store.templates)
      && (TemplateKey(meta) in s.templates ==> run.store.templates == s.templates)
  {
  }

  /** With no failure the template step yields the existing template or a new one. */
  lemma TemplateSucceeds(s: Store, f: Faults, d: Settings, meta: ObjectMeta)
    requires NoFault(TemplatePlan(s, d, meta), f)
    ensures var run := EnsureTemplate(s, f, d, TemplateKey(meta));
      var key := TemplateKey(meta);
      run.calls == TemplatePlan(s, d, meta) && run.result == Ok(TemplateAfter(s, d, meta))
      && run.store == s.(templates := s.templates[key := TemplateAfter(s, d, meta)])
  {
    var plan := TemplatePlan(s, d, meta);
    var key := TemplateKey(meta);
    assert plan[0] == GetTemplate(key) && plan[0] !in f;
    if key in s.templates {
      assert plan == [GetTemplate(key)];
      assert s.templates[key := s.templates[key]] == s.templates;
    } else {
      assert plan[1] == CreateTemplate(key, d.osImageURL, d.hegelURL) && plan[1] !in f;
    }
  }

  /**
   * Get-or-create is idempotent: run again on the store it left, the template step only
   * looks up, returns the same template and changes nothing; one creation at most.
   */
  lemma TemplateStepIdempotent(s: Store, f: Faults, d: Settings, meta: ObjectMeta)
    requires NoFault(TemplatePlan(s, d, meta), f)
    ensures var first := EnsureTemplate(s, f, d, TemplateKey(meta));
      var second := EnsureTemplate(first.store, f, d, TemplateKey(meta));
      second.calls == [GetTemplate(TemplateKey(meta))]
      && second.result == first.result && second.store == first.store
  {
    TemplateSucceeds(s, f, d, meta);
    assert TemplatePlan(s, d, meta)[0] == GetTemplate(TemplateKey(meta));
  }

  /** The template step stops at its first failing call; only the lookup's error is wrapped. */
  lemma TemplateStops(s: Store, f: Faults, d: Settings, meta: ObjectMeta, k: nat)
    requires FirstFault(TemplatePlan(s, d, meta), f, k)
    ensures var run := EnsureTemplate(s, f, d, TemplateKey(meta));
      var plan := TemplatePlan(s, d, meta);
      run.calls == plan[..k + 1] && run.store == s
      && run.result == Err(if k == 0 then GetTemplateFailed(Failed(f[plan[k]]))
                           else Returned(Failed(f[plan[k]])))
  {
    var plan := TemplatePlan(s, d, meta);
    var key := TemplateKey(meta);
    assert plan[0] == GetTemplate(key);
    assert plan[..1] == [GetTemplate(key)];
    if k == 1 {
      assert plan == [GetTemplate(key), CreateTemplate(key, d.osImageURL, d.hegelURL)];
    }
  }

  // ---------------------------------------------------------------------------------
  // Provisioning as a whole
  // ---------------------------------------------------------------------------------

  /** The configured hardware, claimed by `meta` and carrying `userdata`. */
  function Claimed(s: Store, d: Settings, meta: ObjectMeta, userdata: string): Hardware
    requires IndexOfRef(s.pool, d.hardwareRef).Some?
  {
    s.pool[IndexOfRef(s.pool, d.hardwareRef).value].(id := meta.uid, userData := userdata)
  }

  /** The calls provisioning makes, in order, when none of them fails. */
  function ProvisionPlan(s: Store, d: Settings, meta: ObjectMeta, userdata: string): seq<Call>
    requires IndexOfRef(s.pool, d.hardwareRef).Some?
  {
    var hw := s.pool[IndexOfRef(s.pool, d.hardwareRef).value];
    var claimed := Claimed(s, d, meta, userdata);
    [GetHardware(d.hardwareRef)] + ClaimPlan(hw, meta.uid, userdata)
    + (TemplatePlan(s, d, meta) + [CreateWorkflow(d.hardwareRef.name, TemplateAfter(s, d, meta).ref.name, claimed)])
  }

  /** The store after a provisioning none of whose calls fails. */
  function Provisioned(s: Store, d: Settings, meta: ObjectMeta, userdata: string): Store
    requires IndexOfRef(s.pool, d.hardwareRef).Some?
  {
    var ref := d.hardwareRef;
    var claimed := Claimed(s, d, meta, userdata);
    var wf := NamespacedName(ref.namespace, ref.name);
    Store(
      s.pool[IndexOfRef(s.pool, ref).value := claimed],
      s.tinkHardware[ref := claimed],
      s.templates[TemplateKey(meta) := TemplateAfter(s, d, meta)],
      s.workflows[wf := Workflow(wf, TemplateAfter(s, d, meta).ref.name, ref)])
  }

  /** When the configured hardware cannot be fetched, nothing else is called and nothing changes. */
  lemma ProvisionStopsWhenHardwareUnavailable(s: Store, f: Faults, d: Settings, meta: ObjectMeta, userdata: string)
    requires GetHardwareResult(s, f, d.hardwareRef).Err?
    ensures var run := Provision(s, f, d, meta, userdata);
      run.calls == [GetHardware(d.hardwareRef)] && run.store == s
      && run.result == Err(Returned(GetHardwareResult(s, f, d.hardwareRef).error))
  {
  }

  /** With no failure, provisioning makes exactly the planned calls and claims the hardware. */
  lemma ProvisionFollowsPlan(s: Store, f: Faults, d: Settings, meta: ObjectMeta, userdata: string)
    requires IndexOfRef(s.pool, d.hardwareRef).Some?
    requires NoFault(ProvisionPlan(s, d, meta, userdata), f)
    ensures var run := Provision(s, f, d, meta, userdata);
      run.calls == ProvisionPlan(s, d, meta, userdata)
      && run.store == Provisioned(s, d, meta, userdata)
      && run.result == Ok(Claimed(s, d, meta, userdata))
  {
    var i := IndexOfRef(s.pool, d.hardwareRef).value;
    var hw := s.pool[i];
    var plan := ProvisionPlan(s, d, meta, userdata);
    var cp := ClaimPlan(hw, meta.uid, userdata);
    var tp := TemplatePlan(s, d, meta);
    assert plan[0] == GetHardware(d.hardwareRef);
    assert NoFault(cp, f) by {
      forall j | 0 <= j < |cp| ensures cp[j] !in f { assert cp[j] == plan[1 + j]; }
    }
    assert NoFault(tp, f) by {
      forall j | 0 <= j < |tp| ensures tp[j] !in f { assert tp[j] == plan[4 + j]; }
    }
    assert plan[|plan| - 1] !in f;
    ClaimSucceeds(s, f, hw, i, meta.uid, userdata);
    var claim := Claim(s, f, hw, meta.uid, userdata);
    TemplateSucceeds(claim.store, f, d, meta);
  }

  /** A failure while claiming: steps 2-4. */
  lemma ProvisionFaultWhileClaiming(s: Store, f: Faults, d: Settings, meta: ObjectMeta, userdata: string, k: nat)
    requires IndexOfRef(s.pool, d.hardwareRef).Some?
    requires FirstFault(ProvisionPlan(s, d, meta, userdata), f, k) && 1 <= k <= 3
    ensures var plan := ProvisionPlan(s, d, meta, userdata);
      var run := Provision(s, f, d, meta, userdata);
      run.calls == plan[..k + 1] && run.result == Err(Returned(Failed(f[plan[k]])))
      && run.store.workflows == s.workflows
  {
    var i := IndexOfRef(s.pool, d.hardwareRef).value;
    var hw := s.pool[i];
    var plan := ProvisionPlan(s, d, meta, userdata);
    var cp := ClaimPlan(hw, meta.uid, userdata);
    assert plan[0] == GetHardware(d.hardwareRef) && plan[0] !in f;
    assert FirstFault(cp, f, k - 1) by {
      forall j | 0 <= j < k - 1 ensures cp[j] !in f { assert cp[j] == plan[1 + j]; }
      assert cp[k - 1] == plan[k];
    }
    ClaimStops(s, f, hw, i, meta.uid, userdata, k - 1);
    assert plan[..k + 1] == [plan[0]] + cp[..k];
  }

  /** A failure in the template step: step 5. */
  lemma ProvisionFaultAtTemplate(s: Store, f: Faults, d: Settings, meta: ObjectMeta, userdata: string, k: nat)
    requires IndexOfRef(s.pool, d.hardwareRef).Some?
    requires FirstFault(ProvisionPlan(s, d, meta, userdata), f, k) && 4 <= k < 4 + |TemplatePlan(s, d, meta)|
    ensures var plan := ProvisionPlan(s, d, meta, userdata);
      var run := Provision(s, f, d, meta, userdata);
      var cause := Failed(f[plan[k]]);
      run.calls == plan[..k + 1]
      && run.result == Err(if k == 4 then GetTemplateFailed(cause) else Returned(cause))
      && run.store.workflows == s.workflows
  {
    var i := IndexOfRef(s.pool, d.hardwareRef).value;
    var hw := s.pool[i];
    var plan := ProvisionPlan(s, d, meta, userdata);
    var cp := ClaimPlan(hw, meta.uid, userdata);
    var tp := TemplatePlan(s, d, meta);
    assert plan[0] == GetHardware(d.hardwareRef) && plan[0] !in f;
    assert NoFault(cp, f) by {
      forall j | 0 <= j < |cp| ensures cp[j] !in f { assert cp[j] == plan[1 + j]; }
    }
    ClaimSucceeds(s, f, hw, i, meta.uid, userdata);
    var claim := Claim(s, f, hw, meta.uid, userdata);
    assert TemplatePlan(claim.store, d, meta) == tp;
    assert FirstFault(tp, f, k - 4) by {
      forall j | 0 <= j < k - 4 ensures tp[j] !in f { assert tp[j] == plan[4 + j]; }
      assert tp[k - 4] == plan[k];
    }
    TemplateStops(claim.store, f, d, meta, k - 4);
    assert plan[..k + 1] == ([plan[0]] + cp) + tp[..k - 3];
  }

  /** A failure creating the workflow: step 6, the last call. */
  lemma ProvisionFaultAtWorkflow(s: Store, f: Faults, d: Settings, meta: ObjectMeta, userdata: string)
    requires IndexOfRef(s.pool, d.hardwareRef).Some?
    requires FirstFault(ProvisionPlan(s, d, meta, userdata), f, |ProvisionPlan(s, d, meta, userdata)| - 1)
    ensures var plan := ProvisionPlan(s, d, meta, userdata);
      var run := Provision(s, f, d, meta, userdata);
      run.calls == plan && run.result == Err(Returned(Failed(f[plan[|plan| - 1]])))
      && run.store.workflows == s.workflows
  {
    var i := IndexOfRef(s.pool, d.hardwareRef).value;
    var hw := s.pool[i];
    var plan := ProvisionPlan(s, d, meta, userdata);
    var cp := ClaimPlan(hw, meta.uid, userdata);
    var tp := TemplatePlan(s, d, meta);
    assert plan[0] == GetHardware(d.hardwareRef) && plan[0] !in f;
    assert NoFault(cp, f) by {
      forall j | 0 <= j < |cp| ensures cp[j] !in f { assert cp[j] == plan[1 + j]; }
    }
    ClaimSucceeds(s, f, hw, i, meta.uid, userdata);
    var claim := Claim(s, f, hw, meta.uid, userdata);
    assert TemplatePlan(claim.store, d, meta) == tp;
    assert NoFault(tp, f) by {
      forall j | 0 <= j < |tp| ensures tp[j] !in f { assert tp[j] == plan[4 + j]; }
    }
    TemplateSucceeds(claim.store, f, d, meta);
  }

  /**
   * When the planned call at `k` is the first to fail, provisioning has made exactly the
   * calls up to it, returns its error (wrapped only for the template lookup) and has
   * created no workflow.
   */
  lemma ProvisionStopsAtFirstFault(s: Store, f: Faults, d: Settings, meta: ObjectMeta, userdata: string, k: nat)
    requires IndexOfRef(s.pool, d.hardwareRef).Some?
    requires FirstFault(ProvisionPlan(s, d, meta, userdata), f, k)
    ensures var plan := ProvisionPlan(s, d, meta, userdata);
      var run := Provision(s, f, d, meta, userdata);
      var cause := Failed(f[plan[k]]);
      run.calls == plan[..k + 1]
      && run.result == Err(if plan[k].GetTemplate? then GetTemplateFailed(cause) else Returned(cause))
      && run.store.workflows == s.workflows
  {
    var plan := ProvisionPlan(s, d, meta, userdata);
    var tp := TemplatePlan(s, d, meta);
    assert plan[4] == GetTemplate(TemplateKey(meta));
    if k == 0 {
      assert plan[..1] == [plan[0]];
    } else if k <= 3 {
      ProvisionFaultWhileClaiming(s, f, d, meta, userdata, k);
    } else if k < 4 + |tp| {
      ProvisionFaultAtTemplate(s, f, d, meta, userdata, k);
    } else {
      ProvisionFaultAtWorkflow(s, f, d, meta, userdata);
      assert plan[..k + 1] == plan;
    }
  }

  /** Claiming keeps every key of the pool and touches nothing on the Tinkerbell side but its hardware. */
  lemma ClaimFrame(s: Store, f: Faults, hw: Hardware, uid: string, userdata: string)
    ensures var run := Claim(s, f, hw, uid, userdata);
      SameRefs(s.pool, run.store.pool)
      && run.store.templates == s.templates && run.store.workflows == s.workflows
      && forall c :: c in run.calls ==> c in ClaimPlan(hw, uid, userdata)
  {
    var r2 := SetHardwareIDReply(s, f, hw.ref, uid);
    var r3 := SetHardwareUserDataReply(r2.store, f, hw.ref, userdata);
    assert SameRefs(s.pool, r3.store.pool);
  }

  /**
   * Steps 5-6 leave both hardware collections alone, and their only calls besides the
   * template step's are workflow creations.
   */
  lemma ProvisionClaimedFrame(s: Store, f: Faults, d: Settings, meta: ObjectMeta, server: Hardware)
    ensures var run := ProvisionClaimed(s, f, d, meta, server);
      run.store.pool == s.pool && run.store.tinkHardware == s.tinkHardware
      && forall c :: c in run.calls ==> c in EnsureTemplate(s, f, d, TemplateKey(meta)).calls || c.CreateWorkflow?
  {
    TemplateFrame(s, f, d, meta);
  }

  /** Provisioning keeps every key of the pool, so keys stay unique. */
  lemma ProvisionKeepsRefs(s: Store, f: Faults, d: Settings, meta: ObjectMeta, userdata: string)
    ensures SameRefs(s.pool, Provision(s, f, d, meta, userdata).store.pool)
    ensures RefsUnique(s.pool) ==> RefsUnique(Provision(s, f, d, meta, userdata).store.pool)
  {
    match GetHardwareResult(s, f, d.hardwareRef)
    case Err(_) =>
    case Ok(hw) =>
      ClaimFrame(s, f, hw, meta.uid, userdata);
      var claim := Claim(s, f, hw, meta.uid, userdata);
      if claim.result.Ok? {
        ProvisionClaimedFrame(claim.store, f, d, meta, claim.result.value);
      }
  }

  /** An existing template is never replaced by provisioning. */
  lemma ProvisionKeepsExistingTemplate(s: Store, f: Faults, d: Settings, meta: ObjectMeta, userdata: string)
    requires TemplateKey(meta) in s.templates
    ensures Provision(s, f, d, meta, userdata).store.templates == s.templates
  {
    match GetHardwareResult(s, f, d.hardwareRef)
    case Err(_) =>
    case Ok(hw) =>
      ClaimFrame(s, f, hw, meta.uid, userdata);
      var claim := Claim(s, f, hw, meta.uid, userdata);
      TemplateFrame(claim.store, f, d, meta);
  }

  lemma ClaimKeepsKeys(s: Store, f: Faults, hw: Hardware, uid: string, userdata: string)
    requires KeyedByName(s)
    ensures KeyedByName(Claim(s, f, hw, uid, userdata).store)
  {
    var r2 := SetHardwareIDReply(s, f, hw.ref, uid);
    var r3 := SetHardwareUserDataReply(r2.store, f, hw.ref, userdata);
    var claimed := hw.(id := uid, userData := userdata);
    var r4 := CreateHardwareOnTinkClusterReply(r3.store, f, claimed);
    assert r3.store.tinkHardware == s.tinkHardware && r3.store.templates == s.templates
      && r3.store.workflows == s.workflows;
    assert KeyedByName(r4.store);
  }

  lemma ProvisionClaimedKeepsKeys(s: Store, f: Faults, d: Settings, meta: ObjectMeta, server: Hardware)
    requires KeyedByName(s)
    ensures KeyedByName(ProvisionClaimed(s, f, d, meta, server).store)
  {
    var tmpl := EnsureTemplate(s, f, d, TemplateKey(meta));
    assert KeyedByName(tmpl.store);
  }

  /**
   * The only workflow provisioning can add is the one named after the hardware, not the
   * `<name>-workflow` that deprovisioning deletes.
   */
  lemma ProvisionAddsOnlyItsWorkflow(s: Store, f: Faults, d: Settings, meta: ObjectMeta, userdata: string)
    ensures var wf := NamespacedName(d.hardwareRef.namespace, d.hardwareRef.name);
      Provision(s, f, d, meta, userdata).store.workflows.Keys <= s.workflows.Keys + {wf}
  {
    match GetHardwareResult(s, f, d.hardwareRef)
    case Err(_) =>
    case Ok(hw) =>
      ClaimFrame(s, f, hw, meta.uid, userdata);
      var claim := Claim(s, f, hw, meta.uid, userdata);
      if claim.result.Ok? {
        assert claim.result.value.ref == d.hardwareRef;
        ProvisionClaimedWorkflows(claim.store, f, d, meta, claim.result.value);
      }
  }

  lemma ProvisionClaimedWorkflows(s: Store, f: Faults, d: Settings, meta: ObjectMeta, server: Hardware)
    ensures var wf := NamespacedName(server.ref.namespace, server.ref.name);
      ProvisionClaimed(s, f, d, meta, server).store.workflows.Keys <= s.workflows.Keys + {wf}
  {
    TemplateFrame(s, f, d, meta);
  }

  /** Every object provisioning creates is stored under its own name. */
  lemma ProvisionKeepsKeys(s: Store, f: Faults, d: Settings, meta: ObjectMeta, userdata: string)
    requires KeyedByName(s)
    ensures KeyedByName(Provision(s, f, d, meta, userdata).store)
  {
    match GetHardwareResult(s, f, d.hardwareRef)
    case Err(_) =>
    case Ok(hw) =>
      ClaimKeepsKeys(s, f, hw, meta.uid, userdata);
      var claim := Claim(s, f, hw, meta.uid, userdata);
      if claim.result.Ok? {
        ProvisionClaimedKeepsKeys(claim.store, f, d, meta, claim.result.value);
      }
  }

  /**
   * In a store whose objects sit under their own names, the workflow a successful
   * provisioning creates binds the template named after the machine.
   */
  lemma ProvisionBindsMachineTemplate(s: Store, f: Faults, d: Settings, meta: ObjectMeta, userdata: string)
    requires IndexOfRef(s.pool, d.hardwareRef).Some?
    requires NoFault(ProvisionPlan(s, d, meta, userdata), f)
    requires KeyedByName(s)
    ensures var wf := NamespacedName(d.hardwareRef.namespace, d.hardwareRef.name);
      var workflows := Provision(s, f, d, meta, userdata).store.workflows;
      wf in workflows && workflows[wf] == Workflow(wf, meta.name, d.hardwareRef)
  {
    ProvisionFollowsPlan(s, f, d, meta, userdata);
  }

  /** Provisioning succeeds exactly when the hardware exists and none of the planned calls fails. */
  lemma ProvisionSucceedsIff(s: Store, f: Faults, d: Settings, meta: ObjectMeta, userdata: string)
    ensures Provision(s, f, d, meta, userdata).result.Ok?
            <==> IndexOfRef(s.pool, d.hardwareRef).Some? && NoFault(ProvisionPlan(s, d, meta, userdata), f)
  {
    if GetHardwareResult(s, f, d.hardwareRef).Err? {
      ProvisionStopsWhenHardwareUnavailable(s, f, d, meta, userdata);
      if IndexOfRef(s.pool, d.hardwareRef).Some? {
        assert ProvisionPlan(s, d, meta, userdata)[0] in f;
      }
    } else if NoFault(ProvisionPlan(s, d, meta, userdata), f) {
      ProvisionFollowsPlan(s, f, d, meta, userdata);
    } else {
      var k := SomeFirstFault(ProvisionPlan(s, d, meta, userdata), f);
      ProvisionStopsAtFirstFault(s, f, d, meta, userdata, k);
    }
  }

  /**
   * A successful provisioning returns the configured hardware, claimed by the workload and
   * carrying the userdata, as it now is in both clusters; its last call creates the workflow
   * for that same hardware.
   */
  lemma ProvisionReturnsClaimedHardware(s: Store, f: Faults, d: Settings, meta: ObjectMeta, userdata: string)
    requires Provision(s, f, d, meta, userdata).result.Ok?
    ensures var run := Provision(s, f, d, meta, userdata);
      var server := run.result.value;
      server.ref == d.hardwareRef && server.id == meta.uid && server.userData == userdata
      && server in run.store.pool && run.store.tinkHardware[d.hardwareRef] == server
      && |run.calls| > 0 && run.calls[|run.calls| - 1].CreateWorkflow? && run.calls[|run.calls| - 1].hardware == server
      && run.calls[|run.calls| - 1].name == d.hardwareRef.name
  {
    ProvisionSucceedsIff(s, f, d, meta, userdata);
    ProvisionFollowsPlan(s, f, d, meta, userdata);
    var i := IndexOfRef(s.pool, d.hardwareRef).value;
    assert Provision(s, f, d, meta, userdata).store.pool[i] == Claimed(s, d, meta, userdata);
  }

  /** The template step creates only the template it looked up, and only after a NotFound. */
  lemma TemplateCreation(s: Store, f: Faults, d: Settings, meta: ObjectMeta)
    ensures var run := EnsureTemplate(s, f, d, TemplateKey(meta));
      forall c :: c in run.calls && c.CreateTemplate? ==>
        c == CreateTemplate(TemplateKey(meta), d.osImageURL, d.hegelURL)
        && GetTemplateResult(s, f, TemplateKey(meta)) == Err(NotFound)
  {
  }

  /**
   * Every template creation follows a lookup of the same key that found nothing; a lookup
   * failing any other way never leads to one.
   */
  lemma TemplateCreatedOnlyWhenNotFound(s: Store, f: Faults, d: Settings, meta: ObjectMeta, userdata: string)
    ensures var run := Provision(s, f, d, meta, userdata);
      forall c :: c in run.calls && c.CreateTemplate? ==>
        c == CreateTemplate(TemplateKey(meta), d.osImageURL, d.hegelURL)
        && GetTemplateResult(s, f, TemplateKey(meta)) == Err(NotFound)
  {
    match GetHardwareResult(s, f, d.hardwareRef)
    case Err(_) =>
    case Ok(hw) =>
      var claim := Claim(s, f, hw, meta.uid, userdata);
      ClaimFrame(s, f, hw, meta.uid, userdata);
      var c1 := GetHardware(d.hardwareRef);
      var run := Provision(s, f, d, meta, userdata);
      if claim.result.Err? {
        assert run.calls == [c1] + claim.calls;
      } else {
        var rest := ProvisionClaimed(claim.store, f, d, meta, claim.result.value);
        assert run.calls == ([c1] + claim.calls) + rest.calls;
        ClaimedTemplateCreation(s, claim.store, f, d, meta, claim.result.value);
      }
  }

  /** `TemplateCreatedOnlyWhenNotFound` for steps 5-6, run on a store with the templates of `s0`. */
  lemma ClaimedTemplateCreation(s0: Store, s: Store, f: Faults, d: Settings, meta: ObjectMeta, server: Hardware)
    requires s.templates == s0.templates
    ensures forall c :: c in ProvisionClaimed(s, f, d, meta, server).calls && c.CreateTemplate? ==>
      c == CreateTemplate(TemplateKey(meta), d.osImageURL, d.hegelURL)
      && GetTemplateResult(s0, f, TemplateKey(meta)) == Err(NotFound)
  {
    TemplateCreation(s, f, d, meta);
    ProvisionClaimedFrame(s, f, d, meta, server);
  }

  /**
   * After a successful provisioning, looking the server up by the workload's UID finds the
   * hardware provisioning returned, provided no other record carried that UID before.
   */
  lemma ProvisionThenGetServer(s: Store, f: Faults, d: Settings, meta: ObjectMeta, userdata: string)
    requires RefsUnique(s.pool)
    requires forall hw :: hw in s.pool && hw.ref != d.hardwareRef ==> hw.id != meta.uid
    requires GetHardwareWithID(meta.uid) !in f
    requires Provision(s, f, d, meta, userdata).result.Ok?
    ensures var run := Provision(s, f, d, meta, userdata);
      GetServer(run.store, f, meta) == run.result
  {
    ProvisionSucceedsIff(s, f, d, meta, userdata);
    ProvisionFollowsPlan(s, f, d, meta, userdata);
    var i := IndexOfRef(s.pool, d.hardwareRef).value;
    var pool := Provision(s, f, d, meta, userdata).store.pool;
    assert pool == s.pool[i := Claimed(s, d, meta, userdata)];
    forall j | 0 <= j < i
      ensures pool[j].id != meta.uid
    {
      assert s.pool[j] in s.pool && s.pool[j].ref != d.hardwareRef;
    }
    FirstWhereIs(pool, (hw: Hardware) => hw.id == meta.uid, i);
  }

  // ---------------------------------------------------------------------------------
  // Deprovisioning
  // ---------------------------------------------------------------------------------

  /** The calls deprovisioning makes, in order, once it has found `hw` and when none fails. */
  function DeprovisionPlan(hw: Hardware, meta: ObjectMeta): seq<Call> {
    [GetHardwareWithID(meta.uid), DeleteWorkflow(WorkflowName(hw), hw.ref.namespace),
     DeleteHardware(hw.ref), SetHardwareID(hw.ref, ""), DeleteTemplate(TemplateKey(meta))]
  }

  /** The error deprovisioning returns when call `k` of its plan fails with `cause`. */
  function DeprovisionError(k: nat, hw: Hardware, cause: StoreError): DriverError {
    match k
    case 1 => DeleteWorkflowFailed(WorkflowName(hw), cause)
    case 2 => DeleteHardwareFailed(hw.ref.name, cause)
    case 3 => ResetHardwareIDFailed(hw.ref.name, cause)
    case 4 => DeleteTemplateFailed(hw.ref.name, cause)
    case _ => Returned(cause)
  }

  /** The store after a deprovisioning of `hw` none of whose calls fails. */
  function Deprovisioned(s: Store, hw: Hardware, meta: ObjectMeta): Store {
    Store(WithClaim(s.pool, hw.ref, ""),
          s.tinkHardware - {hw.ref},
          s.templates - {TemplateKey(meta)},
          s.workflows - {NamespacedName(hw.ref.namespace, WorkflowName(hw))})
  }

  /** When the claimed hardware cannot be found, nothing else is called and nothing changes. */
  lemma DeprovisionStopsWhenLookupFails(s: Store, f: Faults, meta: ObjectMeta)
    requires GetHardwareWithIDResult(s, f, meta.uid).Err?
    ensures var run := Deprovision(s, f, meta);
      run.calls == [GetHardwareWithID(meta.uid)] && run.store == s
      && run.result == Err(Returned(GetHardwareWithIDResult(s, f, meta.uid).error))
  {
  }

  /**
   * With no failure, deprovisioning deletes the workflow named after the hardware, the
   * hardware's Tinkerbell copy and the workload's template, and clears the claim.
   */
  lemma DeprovisionFollowsPlan(s: Store, f: Faults, meta: ObjectMeta, hw: Hardware)
    requires GetHardwareWithIDResult(s, f, meta.uid) == Ok(hw)
    requires hw.ref in s.tinkHardware
    requires NoFault(DeprovisionPlan(hw, meta), f)
    ensures Deprovision(s, f, meta) == Run(Deprovisioned(s, hw, meta), DeprovisionPlan(hw, meta), Ok(()))
  {
    var plan := DeprovisionPlan(hw, meta);
    assert plan[1] !in f && plan[2] !in f && plan[3] !in f && plan[4] !in f;
    assert IndexOfRef(s.pool, hw.ref).Some? by {
      var i :| 0 <= i < |s.pool| && s.pool[i] == hw;
      assert !FirstWhere(s.pool, (x: Hardware) => x.ref == hw.ref).None?;
    }
  }

  /**
   * When the planned call at `k` is the first to fail, deprovisioning has made exactly the
   * calls up to it and returns its error wrapped with the step; the template, deleted
   * last, is still there.
   */
  lemma DeprovisionStopsAtFirstFault(s: Store, f: Faults, meta: ObjectMeta, hw: Hardware, k: nat)
    requires GetHardwareWithIDResult(s, f, meta.uid) == Ok(hw)
    requires k >= 3 ==> hw.ref in s.tinkHardware
    requires FirstFault(DeprovisionPlan(hw, meta), f, k)
    ensures var plan := DeprovisionPlan(hw, meta);
      var run := Deprovision(s, f, meta);
      run.calls == plan[..k + 1]
      && run.result == Err(DeprovisionError(k, hw, Failed(f[plan[k]])))
      && run.store.templates == s.templates
  {
    var plan := DeprovisionPlan(hw, meta);
    assert plan[0] !in f;
    assert IndexOfRef(s.pool, hw.ref).Some? by {
      var i :| 0 <= i < |s.pool| && s.pool[i] == hw;
      assert !FirstWhere(s.pool, (x: Hardware) => x.ref == hw.ref).None?;
    }
    if k == 1 {
      assert plan[..2] == [plan[0]] + [plan[1]];
    } else if k == 2 {
      assert plan[..3] == [plan[0]] + [plan[1]] + [plan[2]];
    } else if k == 3 {
      assert plan[..4] == [plan[0]] + [plan[1]] + [plan[2]] + [plan[3]];
    } else {
      assert plan[..5] == [plan[0]] + [plan[1]] + [plan[2]] + [plan[3]] + [plan[4]];
    }
  }

  /**
   * When the hardware's Tinkerbell copy is already gone, deprovisioning deletes the
   * workflow and then fails with NotFound: it does not reach the claim or the template.
   */
  lemma DeprovisionFailsWhenHardwareGone(s: Store, f: Faults, meta: ObjectMeta, hw: Hardware)
    requires GetHardwareWithIDResult(s, f, meta.uid) == Ok(hw)
    requires hw.ref !in s.tinkHardware
    requires DeprovisionPlan(hw, meta)[1] !in f && DeprovisionPlan(hw, meta)[2] !in f
    ensures var run := Deprovision(s, f, meta);
      run.calls == DeprovisionPlan(hw, meta)[..3]
      && run.result == Err(DeleteHardwareFailed(hw.ref.name, NotFound))
      && run.store == s.(workflows := s.workflows - {NamespacedName(hw.ref.namespace, WorkflowName(hw))})
  {
    var plan := DeprovisionPlan(hw, meta);
    assert plan[..3] == [plan[0]] + [plan[1]] + [plan[2]];
  }

  /** Deprovisioning keeps every key of the pool, so keys stay unique. */
  lemma DeprovisionKeepsRefs(s: Store, f: Faults, meta: ObjectMeta)
    ensures SameRefs(s.pool, Deprovision(s, f, meta).store.pool)
    ensures RefsUnique(s.pool) ==> RefsUnique(Deprovision(s, f, meta).store.pool)
  {
  }

  /** Deprovisioning only deletes on the Tinkerbell cluster, so every object keeps its name. */
  lemma DeprovisionKeepsKeys(s: Store, f: Faults, meta: ObjectMeta)
    requires KeyedByName(s)
    ensures KeyedByName(Deprovision(s, f, meta).store)
  {
    match GetHardwareWithIDResult(s, f, meta.uid)
    case Err(_) =>
    case Ok(hw) => TeardownKeepsKeys(s, f, hw, meta, [GetHardwareWithID(meta.uid)]);
  }

  lemma TeardownKeepsKeys(s: Store, f: Faults, hw: Hardware, meta: ObjectMeta, before: seq<Call>)
    requires KeyedByName(s)
    ensures KeyedByName(Teardown(s, f, hw, meta, before).store)
  {
    var r2 := DeleteWorkflowReply(s, f, WorkflowName(hw), hw.ref.namespace);
    assert KeyedByName(r2.store);
    var r3 := DeleteHardwareReply(r2.store, f, hw.ref);
    assert KeyedByName(r3.store);
    var r4 := SetHardwareIDReply(r3.store, f, hw.ref, "");
    assert KeyedByName(r4.store);
    var r5 := DeleteTemplateReply(r4.store, f, TemplateKey(meta));
    assert KeyedByName(r5.store);
  }

  /**
   * After a successful deprovisioning, looking the server up by the workload's UID finds
   * nothing, provided keys are unique and one record at most carried that non-empty UID.
   */
  lemma DeprovisionReleasesClaim(s: Store, f: Faults, meta: ObjectMeta)
    requires RefsUnique(s.pool)
    requires meta.uid != ""
    requires forall i, j :: 0 <= i < |s.pool| && 0 <= j < |s.pool| ==>
               (s.pool[i].id == meta.uid && s.pool[j].id == meta.uid ==> i == j)
    requires GetHardwareWithID(meta.uid) !in f
    requires Deprovision(s, f, meta).result.Ok?
    ensures GetServer(Deprovision(s, f, meta).store, f, meta) == Err(Returned(NotFound))
  {
    var hw := GetHardwareWithIDResult(s, f, meta.uid).value;
    var plan := DeprovisionPlan(hw, meta);
    var i := IndexOfClaim(s.pool, meta.uid).value;
    assert hw == s.pool[i];
    assert IndexOfRef(s.pool, hw.ref) == Some(i) by {
      FirstWhereIs(s.pool, (x: Hardware) => x.ref == hw.ref, i);
    }
    var pool := Deprovision(s, f, meta).store.pool;
    assert pool == WithClaim(s.pool, hw.ref, "");
    forall j | 0 <= j < |pool|
      ensures pool[j].id != meta.uid
    {
      if j != i {
        assert s.pool[j].id != meta.uid;
      }
    }
  }

  /**
   * Deprovisioning succeeds exactly when the claimed hardware is found, its Tinkerbell copy
   * exists and none of the planned calls fails.
   */
  lemma DeprovisionSucceedsIff(s: Store, f: Faults, meta: ObjectMeta)
    ensures Deprovision(s, f, meta).result.Ok?
            <==> GetHardwareWithIDResult(s, f, meta.uid).Ok?
                 && GetHardwareWithIDResult(s, f, meta.uid).value.ref in s.tinkHardware
                 && NoFault(DeprovisionPlan(GetHardwareWithIDResult(s, f, meta.uid).value, meta), f)
  {
    match GetHardwareWithIDResult(s, f, meta.uid)
    case Err(_) =>
      DeprovisionStopsWhenLookupFails(s, f, meta);
    case Ok(hw) =>
      var plan := DeprovisionPlan(hw, meta);
      if !NoFault(plan, f) {
        var k := SomeFirstFault(plan, f);
        if k >= 3 && hw.ref !in s.tinkHardware {
          DeprovisionFailsWhenHardwareGone(s, f, meta, hw);
        } else {
          DeprovisionStopsAtFirstFault(s, f, meta, hw, k);
        }
      } else if hw.ref in s.tinkHardware {
        DeprovisionFollowsPlan(s, f, meta, hw);
      } else {
        DeprovisionFailsWhenHardwareGone(s, f, meta, hw);
      }
  }

  /** In the provisioned store the workload's UID leads to the claimed hardware, and to it alone. */
  lemma ProvisionedClaim(s: Store, d: Settings, meta: ObjectMeta, userdata: string)
    requires RefsUnique(s.pool)
    requires IndexOfRef(s.pool, d.hardwareRef).Some?
    requires forall hw :: hw in s.pool && hw.ref != d.hardwareRef ==> hw.id != meta.uid
    ensures var s1 := Provisioned(s, d, meta, userdata);
      var i := IndexOfRef(s.pool, d.hardwareRef).value;
      RefsUnique(s1.pool) && IndexOfRef(s1.pool, d.hardwareRef) == Some(i)
      && IndexOfClaim(s1.pool, meta.uid) == Some(i)
      && forall j :: 0 <= j < |s1.pool| && j != i ==> s1.pool[j].id != meta.uid
  {
    var s1 := Provisioned(s, d, meta, userdata);
    var i := IndexOfRef(s.pool, d.hardwareRef).value;
    assert SameRefs(s.pool, s1.pool);
    IndexOfRefSameRefs(s.pool, s1.pool, d.hardwareRef);
    forall j | 0 <= j < |s1.pool| && j != i
      ensures s1.pool[j].id != meta.uid
    {
      assert s1.pool[j] == s.pool[j] && s.pool[j] in s.pool;
    }
    FirstWhereIs(s1.pool, (hw: Hardware) => hw.id == meta.uid, i);
  }

  /**
   * Provisioning and then deprovisioning the same workload, with no failure, leaves the
   * record unclaimed (its userdata stays), removes its Tinkerbell copy and the template,
   * and the server can no longer be found.
   */
  lemma ProvisionThenDeprovision(s: Store, f: Faults, d: Settings, meta: ObjectMeta, userdata: string)
    requires RefsUnique(s.pool) && meta.uid != ""
    requires IndexOfRef(s.pool, d.hardwareRef).Some?
    requires forall hw :: hw in s.pool && hw.ref != d.hardwareRef ==> hw.id != meta.uid
    requires NoFault(ProvisionPlan(s, d, meta, userdata), f)
    requires NoFault(DeprovisionPlan(Claimed(s, d, meta, userdata), meta), f)
    ensures var i := IndexOfRef(s.pool, d.hardwareRef).value;
      var s1 := Provision(s, f, d, meta, userdata).store;
      var run := Deprovision(s1, f, meta);
      run.result == Ok(())
      && run.store.pool == s.pool[i := s.pool[i].(id := "", userData := userdata)]
      && d.hardwareRef !in run.store.tinkHardware
      && TemplateKey(meta) !in run.store.templates
      && GetServer(run.store, f, meta) == Err(Returned(NotFound))
  {
    ProvisionFollowsPlan(s, f, d, meta, userdata);
    DeprovisionProvisioned(s, f, d, meta, userdata);
  }

  /** `ProvisionThenDeprovision`, on the store provisioning leaves. */
  lemma DeprovisionProvisioned(s: Store, f: Faults, d: Settings, meta: ObjectMeta, userdata: string)
    requires RefsUnique(s.pool) && meta.uid != ""
    requires IndexOfRef(s.pool, d.hardwareRef).Some?
    requires forall hw :: hw in s.pool && hw.ref != d.hardwareRef ==> hw.id != meta.uid
    requires NoFault(DeprovisionPlan(Claimed(s, d, meta, userdata), meta), f)
    ensures var i := IndexOfRef(s.pool, d.hardwareRef).value;
      var run := Deprovision(Provisioned(s, d, meta, userdata), f, meta);
      run.result == Ok(())
      && run.store.pool == s.pool[i := s.pool[i].(id := "", userData := userdata)]
      && d.hardwareRef !in run.store.tinkHardware
      && TemplateKey(meta) !in run.store.templates
      && GetServer(run.store, f, meta) == Err(Returned(NotFound))
  {
    var i := IndexOfRef(s.pool, d.hardwareRef).value;
    var claimed := Claimed(s, d, meta, userdata);
    var s1 := Provisioned(s, d, meta, userdata);
    ProvisionedClaim(s, d, meta, userdata);
    assert DeprovisionPlan(claimed, meta)[0] !in f;
    assert GetHardwareWithIDResult(s1, f, meta.uid) == Ok(claimed);
    DeprovisionFollowsPlan(s1, f, meta, claimed);
    DeprovisionReleasesClaim(s1, f, meta);
  }

  /**
   * After a successful deprovisioning the workflow named after the hardware, the
   * hardware's Tinkerbell copy and the workload's template are all absent, and the pool
   * record of the hardware is unclaimed.
   */
  lemma DeprovisionCleansUp(s: Store, f: Faults, meta: ObjectMeta)
    requires Deprovision(s, f, meta).result.Ok?
    ensures var hw := GetHardwareWithIDResult(s, f, meta.uid).value;
      var after := Deprovision(s, f, meta).store;
      NamespacedName(hw.ref.namespace, hw.ref.name + "-workflow") !in after.workflows
      && hw.ref !in after.tinkHardware
      && NamespacedName("tink-stack", meta.name) !in after.templates
      && IndexOfRef(after.pool, hw.ref).Some?
      && after.pool[IndexOfRef(after.pool, hw.ref).value] == s.pool[IndexOfRef(s.pool, hw.ref).value].(id := "")
  {
    DeprovisionSucceedsIff(s, f, meta);
    var hw := GetHardwareWithIDResult(s, f, meta.uid).value;
    DeprovisionFollowsPlan(s, f, meta, hw);
    var after := Deprovision(s, f, meta).store;
    assert IndexOfRef(s.pool, hw.ref).Some? by {
      var i :| 0 <= i < |s.pool| && s.pool[i] == hw;
      assert !FirstWhere(s.pool, (x: Hardware) => x.ref == hw.ref).None?;
    }
    IndexOfRefSameRefs(s.pool, after.pool, hw.ref);
  }
}
