# Tinkerbell bare-metal driver, modelled in Dafny

This project models the Tinkerbell plugin of machine-controller's bare-metal cloud
provider (`driver.go`). That driver provisions a physical machine for a workload:

- it claims a hardware record for the workload;
- it attaches the workload's userdata to the record;
- it copies the record to the Tinkerbell cluster;
- it makes sure a provisioning template exists;
- it creates the workflow that binds the hardware to the template.

Deprovisioning looks the hardware up by the workload's UID and then:

- deletes the workflow named `<hardware>-workflow`;
- deletes the hardware's Tinkerbell copy;
- resets the claim on the pool record to "";
- deletes the workload's template.

It leaves the userdata on the pool record. The workflow that provisioning creates is
stored under the hardware's own name, which is not the name deprovisioning deletes
(`ProvisionAddsOnlyItsWorkflow`), so that workflow remains.

`GetConfig` builds the driver's connection configuration from the plugin specification.

Files:

- `outcome.dfy`: `Option` and `Result`.
- `store.dfy` (module `TinkStore`): the objects and the effect of each collaborator call.
  - The machine-controller cluster holds the pool of hardware records, in list order. A
    record carries a claim (the workload's UID) and the userdata.
  - The Tinkerbell cluster holds the hardware copies, the templates and the workflows, each
    keyed by namespace and name.
  - Whether a call fails for reasons outside the driver is decided by a fault map from calls
    to causes. "Not found" arises only where the object is absent.
- `driver.dfy` (module `TinkerbellDriver`):
  - `GetServer` and `Validate`, as functions.
  - `Provision` and `Deprovision`, as functions that give the new store, the calls made in
    order and the result.
  - The `Driver` class. Its fields are the two clusters' collections and the trace of calls
    made. `ProvisionServer` and `DeprovisionServer` are methods proved equal to those
    functions.
- `driver_props.dfy` (module `DriverProperties`): the properties of provisioning and
  deprovisioning.
- `base64.dfy` (module `Base64`): Go's `base64.StdEncoding.DecodeString`, meaning RFC 4648
  section 4 with Go's leniencies.
  - Carriage returns and line feeds are skipped anywhere.
  - Padding is required.
  - Non-zero bits under the padding are accepted.
- `config.dfy` (module `TinkConfig`): `GetConfig`.

Notes on the code:

- Provisioning returns the collaborator's error unwrapped at every step except the template
  lookup (driver.go:147). It does not name the failed step each time.
- The claim reset in deprovisioning (driver.go:187-190) acts on the machine-controller
  cluster's record, as the comment at driver.go:187 says. That is a different object from
  the Tinkerbell copy deleted at driver.go:183. So the reset is not a write to a deleted
  object, and a successful deprovisioning leaves the record unclaimed
  (`DeprovisionReleasesClaim`).
- An existing template is returned unchanged, whatever its parameters
  (`ProvisionKeepsExistingTemplate`).

## Model

| member | source | states |
|---|---|---|
| TinkerbellDriver.GetServer | pkg/cloudprovider/provider/baremetal/plugins/tinkerbell/driver.go:108-116 | the server is a pool record carrying the workload's UID; the error is NotFound exactly when the lookup does not fail otherwise and no record carries that UID |
| TinkerbellDriver.Validate | pkg/cloudprovider/provider/baremetal/plugins/tinkerbell/driver.go:164-167 | every provider specification is accepted |
| TinkerbellDriver.Provision | pkg/cloudprovider/provider/baremetal/plugins/tinkerbell/driver.go:118-162 | a returned server is the configured hardware with the workload's UID as its claim and the workload's userdata |
| TinkerbellDriver.Deprovision | pkg/cloudprovider/provider/baremetal/plugins/tinkerbell/driver.go:169-198 | the workload's template is gone after a successful run and untouched after a failed one |
| TinkerbellDriver.Driver.ProvisionServer | pkg/cloudprovider/provider/baremetal/plugins/tinkerbell/driver.go:118-162 | the new store, the calls appended to the trace and the result are those of `Provision` on the old store |
| TinkerbellDriver.Driver.ClaimHardware | pkg/cloudprovider/provider/baremetal/plugins/tinkerbell/driver.go:124-140 | steps 2-4 (claim, userdata, Tinkerbell copy) change the store and trace as `Claim` says |
| TinkerbellDriver.Driver.FindOrCreateTemplate | pkg/cloudprovider/provider/baremetal/plugins/tinkerbell/driver.go:142-154 | the template lookup, and creation only after NotFound, change the store and trace as `EnsureTemplate` says |
| TinkerbellDriver.Driver.FinishProvisioning | pkg/cloudprovider/provider/baremetal/plugins/tinkerbell/driver.go:142-161 | the template step followed by workflow creation, as `ProvisionClaimed` says |
| TinkerbellDriver.Driver.DeprovisionServer | pkg/cloudprovider/provider/baremetal/plugins/tinkerbell/driver.go:169-198 | the new store, the calls appended to the trace and the result are those of `Deprovision` on the old store |
| TinkerbellDriver.Driver.GetHardware | pkg/cloudprovider/provider/baremetal/plugins/tinkerbell/driver.go:119 | fetches the configured record; records the call; changes nothing else |
| TinkerbellDriver.Driver.SetHardwareID | pkg/cloudprovider/provider/baremetal/plugins/tinkerbell/driver.go:124 | writes the claim on the pool record; records the call |
| TinkerbellDriver.Driver.GetHardwareWithID | pkg/cloudprovider/provider/baremetal/plugins/tinkerbell/driver.go:170 | returns the first pool record claimed by the UID, NotFound when none is; records the call; changes nothing else |
| TinkerbellDriver.Driver.SetHardwareUserData | pkg/cloudprovider/provider/baremetal/plugins/tinkerbell/driver.go:130 | writes the userdata on the pool record with the key; records the call |
| TinkerbellDriver.Driver.CreateHardwareOnTinkCluster | pkg/cloudprovider/provider/baremetal/plugins/tinkerbell/driver.go:136 | creates or replaces the Tinkerbell copy under the hardware's key; records the call |
| TinkerbellDriver.Driver.GetTemplate | pkg/cloudprovider/provider/baremetal/plugins/tinkerbell/driver.go:145 | returns the template under the key, NotFound when there is none; records the call; changes nothing else |
| TinkerbellDriver.Driver.CreateTemplate | pkg/cloudprovider/provider/baremetal/plugins/tinkerbell/driver.go:150 | stores and returns the template named by the key, rendered for the two URLs; records the call |
| TinkerbellDriver.Driver.CreateWorkflow | pkg/cloudprovider/provider/baremetal/plugins/tinkerbell/driver.go:157 | stores a workflow binding the template to the hardware under the given name in the hardware's namespace; records the call |
| TinkerbellDriver.Driver.DeleteWorkflow | pkg/cloudprovider/provider/baremetal/plugins/tinkerbell/driver.go:178 | removes the workflow if present, an absent one being no error; records the call |
| TinkerbellDriver.Driver.DeleteHardware | pkg/cloudprovider/provider/baremetal/plugins/tinkerbell/driver.go:183 | removes the Tinkerbell copy, NotFound if it is absent; records the call |
| TinkerbellDriver.Driver.DeleteTemplate | pkg/cloudprovider/provider/baremetal/plugins/tinkerbell/driver.go:194 | removes the template if present, an absent one being no error; records the call |
| DriverProperties.ProvisionStopsWhenHardwareUnavailable | pkg/cloudprovider/provider/baremetal/plugins/tinkerbell/driver.go:119-122 | if the hardware fetch fails, that is the only call made, the store is unchanged and its error is returned |
| DriverProperties.ProvisionFollowsPlan | pkg/cloudprovider/provider/baremetal/plugins/tinkerbell/driver.go:118-162 | with no failure, the calls are fetch, claim, userdata, Tinkerbell copy, template lookup, creation only if the template is missing, and workflow last; the store and the returned claimed hardware are as planned |
| DriverProperties.ProvisionStopsAtFirstFault | pkg/cloudprovider/provider/baremetal/plugins/tinkerbell/driver.go:118-162 | the first failing planned call is the last call made; its error is returned, wrapped only for the template lookup; no workflow is created |
| DriverProperties.ProvisionSucceedsIff | pkg/cloudprovider/provider/baremetal/plugins/tinkerbell/driver.go:118-162 | provisioning succeeds exactly when the hardware exists and no planned call fails |
| DriverProperties.ProvisionReturnsClaimedHardware | pkg/cloudprovider/provider/baremetal/plugins/tinkerbell/driver.go:155-161 | the returned server is the configured hardware with the workload's UID and userdata, as stored in both clusters; the last call creates the workflow for that same server, named after it |
| DriverProperties.TemplateCreatedOnlyWhenNotFound | pkg/cloudprovider/provider/baremetal/plugins/tinkerbell/driver.go:144-153 | every template creation is for key ("tink-stack", workload name) with the configured URLs, and follows a lookup of that key that returned NotFound |
| DriverProperties.ProvisionKeepsExistingTemplate | pkg/cloudprovider/provider/baremetal/plugins/tinkerbell/driver.go:145-154 | an existing template is never replaced |
| DriverProperties.TemplateStepIdempotent | pkg/cloudprovider/provider/baremetal/plugins/tinkerbell/driver.go:142-154 | repeated on the store it left, get-or-create only looks up and returns the same template |
| DriverProperties.TemplateStops | pkg/cloudprovider/provider/baremetal/plugins/tinkerbell/driver.go:145-153 | a failed lookup is wrapped as a template-lookup error; a failed creation is returned as is; the store is unchanged |
| DriverProperties.ClaimStops | pkg/cloudprovider/provider/baremetal/plugins/tinkerbell/driver.go:124-140 | claiming stops at its first failing call and returns that error |
| DriverProperties.ProvisionKeepsRefs | pkg/cloudprovider/provider/baremetal/plugins/tinkerbell/driver.go:118-162 | provisioning keeps every key of the pool, so keys stay unique |
| DriverProperties.ProvisionAddsOnlyItsWorkflow | pkg/cloudprovider/provider/baremetal/plugins/tinkerbell/driver.go:157 | the only workflow provisioning can add is the one named after the hardware in its namespace |
| DriverProperties.ProvisionKeepsKeys | pkg/cloudprovider/provider/baremetal/plugins/tinkerbell/driver.go:118-162 | in a store whose Tinkerbell objects each sit under their own name, provisioning keeps that so |
| DriverProperties.ProvisionBindsMachineTemplate | pkg/cloudprovider/provider/baremetal/plugins/tinkerbell/driver.go:142-157 | in such a store, the workflow a successful provisioning creates binds the template named after the machine |
| DriverProperties.ProvisionThenGetServer | pkg/cloudprovider/provider/baremetal/plugins/tinkerbell/driver.go:108-116 | after a successful provisioning, `GetServer` returns the server provisioning returned, if no other record carried the UID |
| DriverProperties.DeprovisionStopsWhenLookupFails | pkg/cloudprovider/provider/baremetal/plugins/tinkerbell/driver.go:170-174 | if the claimed hardware is not found, that is the only call made, the store is unchanged and its error is returned |
| DriverProperties.DeprovisionFollowsPlan | pkg/cloudprovider/provider/baremetal/plugins/tinkerbell/driver.go:169-198 | with no failure, the calls are lookup, delete workflow `<hardware>-workflow`, delete the Tinkerbell copy, reset the claim to "", delete the template, in that order; the store is exactly the one with those removals |
| DriverProperties.DeprovisionStopsAtFirstFault | pkg/cloudprovider/provider/baremetal/plugins/tinkerbell/driver.go:176-196 | the first failing planned call is the last call made; its error is wrapped with the step; the template is still present |
| DriverProperties.DeprovisionFailsWhenHardwareGone | pkg/cloudprovider/provider/baremetal/plugins/tinkerbell/driver.go:182-185 | when the Tinkerbell copy is already gone, deprovisioning fails with NotFound after deleting the workflow, and leaves the claim and the template untouched |
| DriverProperties.DeprovisionSucceedsIff | pkg/cloudprovider/provider/baremetal/plugins/tinkerbell/driver.go:169-198 | deprovisioning succeeds exactly when the claimed hardware is found, its Tinkerbell copy exists and no planned call fails |
| DriverProperties.DeprovisionCleansUp | pkg/cloudprovider/provider/baremetal/plugins/tinkerbell/driver.go:176-196 | after success, the workflow `<hardware>-workflow`, the Tinkerbell copy and the template ("tink-stack", workload name) are absent, and the pool record is unclaimed |
| DriverProperties.DeprovisionReleasesClaim | pkg/cloudprovider/provider/baremetal/plugins/tinkerbell/driver.go:187-190 | after success, `GetServer` for the workload returns NotFound, given unique keys and at most one record with the (non-empty) UID |
| DriverProperties.DeprovisionKeepsKeys | pkg/cloudprovider/provider/baremetal/plugins/tinkerbell/driver.go:169-198 | deprovisioning keeps every Tinkerbell object under its own name |
| DriverProperties.DeprovisionKeepsRefs | pkg/cloudprovider/provider/baremetal/plugins/tinkerbell/driver.go:169-198 | deprovisioning keeps every key of the pool |
| DriverProperties.ProvisionThenDeprovision | pkg/cloudprovider/provider/baremetal/plugins/tinkerbell/driver.go:118-198 | provisioning then deprovisioning with no failure leaves the record unclaimed but still carrying the userdata, removes the Tinkerbell copy and the template, and the server can no longer be found |
| TinkStore.FirstWhere | pkg/cloudprovider/provider/baremetal/plugins/tinkerbell/driver.go:109 | the position found is the first record satisfying the predicate; none means no record does |
| TinkConfig.GetConfig | pkg/cloudprovider/provider/baremetal/plugins/tinkerbell/driver.go:200-240 | the error is "not base64" exactly when an embedded kubeconfig does not decode; on success the kubeconfig is the resolved one and the REST configuration is its parse |
| TinkConfig.EmbeddedNotBase64 | pkg/cloudprovider/provider/baremetal/plugins/tinkerbell/driver.go:204-210 | an embedded kubeconfig that is not base64 fails at once, with no lookup |
| TinkConfig.EmbeddedDecoded | pkg/cloudprovider/provider/baremetal/plugins/tinkerbell/driver.go:204-211 | a valid embedded kubeconfig is never looked up; the configuration carries its decoded bytes |
| TinkConfig.EmbeddedRoundTrip | pkg/cloudprovider/provider/baremetal/plugins/tinkerbell/driver.go:205-211 | the configuration built from the base64 encoding of `b` carries `b` |
| TinkConfig.ResolvedVerbatim | pkg/cloudprovider/provider/baremetal/plugins/tinkerbell/driver.go:212-219 | an empty embedded kubeconfig is looked up under TINK_KUBECONFIG and used as returned, without decoding; a failed lookup is reported as the kubeconfig's |
| TinkConfig.GetConfigStopsAtFirstFailure | pkg/cloudprovider/provider/baremetal/plugins/tinkerbell/driver.go:200-240 | lookups happen in the order kubeconfig, cluster name, OS image URL, Hegel URL; the first failure is reported with its field; success exactly when every lookup and the parse succeed, each field holding its own answer and the REST configuration being the parse of the kubeconfig; when only the parse fails, its error is reported as an unparsable kubeconfig |
| TinkConfig.OnlyAskedQuestionsMatter | pkg/cloudprovider/provider/baremetal/plugins/tinkerbell/driver.go:215-233 | two lookup functions that agree on the questions asked give the same outcome: no question after the first failure is asked |
| TinkConfig.AskUntilFailure | pkg/cloudprovider/provider/baremetal/plugins/tinkerbell/driver.go:215-233 | the questions asked are a prefix of the plan; all but the last succeed; if it stops early, the last one failed |
| Base64.DecodeQuantaAcceptsExactlyWellFormed | pkg/cloudprovider/provider/baremetal/plugins/tinkerbell/driver.go:205-210 | decoding succeeds exactly on padded, length-multiple-of-4 alphabet text, with the expected length |
| Base64.DecodeString | pkg/cloudprovider/provider/baremetal/plugins/tinkerbell/driver.go:205-210 | decoding succeeds exactly when the text without line breaks is well formed, and then yields three bytes per quantum less one per pad |
| Base64.DecodeStringEncode | pkg/cloudprovider/provider/baremetal/plugins/tinkerbell/driver.go:205-211 | decoding the RFC 4648 encoding of any bytes gives those bytes back |
| Base64.DecodeEncode | pkg/cloudprovider/provider/baremetal/plugins/tinkerbell/driver.go:205 | quantum by quantum, decoding inverts encoding |
| Base64.NewlinesIgnored | pkg/cloudprovider/provider/baremetal/plugins/tinkerbell/driver.go:205 | inserting a carriage return or line feed anywhere does not change the outcome |
| Base64.NonZeroTrailingBitsAccepted | pkg/cloudprovider/provider/baremetal/plugins/tinkerbell/driver.go:205 | non-strict decoding: any `xx==` decodes to one byte from the first character and the top two bits of the second; the second's low bits are not checked |
| Base64.NonZeroTrailingBitsAcceptedTwo | pkg/cloudprovider/provider/baremetal/plugins/tinkerbell/driver.go:205 | likewise any `xxx=` decodes to two bytes; the low two bits of the third character are not checked |

## Left out

- `init` (driver.go:55-60) registers the Tinkerbell types with a process-wide scheme. It
  has no behaviour to model.
- `NewTinkerbellDriver` (driver.go:63-106) builds Kubernetes and metadata clients from
  configuration. That is client construction and I/O. The model takes the resulting
  settings (`Settings`) as given.
- The hardware, workflow and template clients, and the Kubernetes client, are not part of
  this model. Their effects are declared in `store.dfy`:
  - `SetHardwareID` and `SetHardwareUserData` write the first pool record with the key.
  - `CreateHardwareOnTinkCluster` creates or replaces the Tinkerbell copy.
  - `SetHardwareID` and `SetHardwareUserData` also update the driver's own copy of the
    hardware (driver.go:124 and 130 pass a pointer). That is a declared effect: the
    client's code is not part of this model.
  - `GetHardwareWithID` returns the first pool record, in list order, carrying the UID.
    The client's choice among several such records is not part of this model.
  - `CreateHardwareOnTinkCluster` creates or replaces the Tinkerbell copy.
  - `CreateWorkflow` stores the workflow under the name it is given, in the hardware's
    namespace. The workflow client may derive another name; its code is not part of this
    model. As declared here, provisioning creates `<hardware>` while deprovisioning
    deletes `<hardware>-workflow`, so the created workflow is left in place.
  - Deleting an absent workflow or template succeeds; deleting an absent hardware copy is
    NotFound.
- `clientcmd.RESTConfigFromKubeConfig` (driver.go:235) and the lookup function `aa` are
  parameters of `GetConfig`. The REST configuration's type is abstract.
- TinkConfig.GetConfig: the position reported by Go's `CorruptInputError` and the text of
  every error message are not modelled. Errors are constructors naming the failed step.
  driver.go:195 reuses the claim-reset message for a failed template deletion; the model
  keeps the two steps apart (`DeleteTemplateFailed`).
- Context cancellation, concurrency between reconcilers, and races on the stores are not
  modelled. Each operation runs alone on one store.
- `ConfigVarString` resolution (environment variables, secret references) belongs to the
  lookup function and is not part of this model.
- The cluster name in `Settings` is read by no modelled operation.
- Go strings are byte strings; a Dafny `char` stands for one byte. A character at or above
  128 stands for what is several bytes in Go. No such character is in the base64 alphabet,
  so which inputs decode is unchanged.
