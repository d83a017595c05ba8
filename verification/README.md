# A verified model of the MAAS Terraform provider's local logic

The Terraform provider for MAAS (Metal as a Service) is mostly glue between the Terraform
plugin SDK and the MAAS REST API. This project models in Dafny the local logic that glue
relies on, and proves what each piece promises. The pieces are:

- **Query-string encoding.** `ToQSP` turns a flat record into `url.Values`. A json tag renames
  a field, the tag `"-"` excludes it, keys are lower-cased, a scalar is `Set` and a slice
  puts one `Add` per element.
- **Machine history.** `MachineManager` keeps an append-only history of machine states.
  Every successful API call appends exactly the decoded reply, which becomes the current
  machine; a failed call changes nothing.
- **Network interfaces.** These are the parts of the vendored gomaasapi `interface.go` that
  do not touch the network:
  - the link-argument and VLAN-argument checks;
  - the deserialiser choice by controller version;
  - the first-match link lookup;
  - the single-occurrence URI rewrite;
  - the mapping of server status codes to error kinds;
  - the request each operation sends;
  - the in-place refresh (`updateFrom`) after a successful call.
- **Resource IDs.** The Terraform resource IDs `"<system>:<interface>"` and
  `"<system>:<interface>:<subnet>"` are formatted and parsed back. The parser is read from
  the Terraform state, and the model includes the parameters each resource sends.
- **Struct tags to schemas.** Two conversions turn a struct's fields into Terraform schemas:
  `internal/tfschema` (kind to type, boolean and string tags, defaults, one entry per
  lower-cased field name) and `internal/provider/toschema.go` (exact field names, five tags,
  `statefunc` binding).
- **The `maas_subnet` data source.** It reads the filters (empty or zero means "any"),
  selects the first matching subnet and writes the subnet into the state.
- **The `maas_machine` resource.** It builds the release parameters from the `release_erase*`
  flags, converts the configuration into allocation constraints and indexes the subnets of
  every space by name.
- **The client helpers.** `getNodeStatus` renders the status string and `parseConstraints`
  turns the instance's configuration into acquire parameters.
- **Node status codes.** Both `NodeStatus` and `Status` declare the same table with `iota`.

Network calls, the JSON decoder and the Terraform SDK's `d.Set` are parameters of the
operations that use them. Each is a function from the request to its result, so every
property holds whatever the server, the decoder or the SDK answers.

A Go run-time panic is a `Failure` result, never a precondition. This covers a failed type
assertion, a slice index out of range and a `d.Get` of an undeclared attribute.

Go's `int` is `Strings.Int64`, and `strconv.Atoi` clamps on overflow and yields 0 on a syntax
error, as in Go.

Files, one module each:

- `wrappers.dfy`: Option and Result.
- `strings.dfy`: Go's string and decimal helpers.
- `url_values.dfy`: `url.Values`.
- `reflect.dfy`: kinds and struct tags.
- `resource_data.dfy`: the Terraform state as the helpers read it.
- `query_string.dfy`: `pkg/maas/maas.go`.
- `machine_manager.dfy`: `pkg/maas/machine.go`.
- `gomaasapi_interface.dfy`: the vendored `interface.go`.
- `network_interface.dfy`: `internal/tfschema/network_interface.go`.
- `network_interface_link.dfy`: `internal/tfschema/network_interface_link.go`.
- `tfschema_schema.dfy`: `internal/tfschema/schema.go`.
- `tfschema_resource.dfy`: `internal/tfschema/resource.go`.
- `tfschema_resource_test.dfy`: the sample struct of `resource_test.go`.
- `provider_toschema.dfy`: `internal/provider/toschema.go`.
- `data_subnet.dfy`: `internal/provider/data_subnet.go`.
- `machine_resource.dfy`: `resource_maas_machine.go`.
- `maas_client.dfy`: `maas_client.go`.
- `node_status.dfy`: the two status tables.

## Model

| member | source | states |
|---|---|---|
| UrlValues.Add | pkg/maas/maas.go:128-130 | `Add` appends the value to the key's list, creates the key if needed and leaves every other key as it was |
| UrlValues.Set | pkg/maas/maas.go:132 | `Set` replaces the key's list with the single value and leaves every other key as it was |
| UrlValues.AddAll | pkg/maas/maas.go:128-130 | successive `Add`s append the values in order; an empty slice adds nothing, not even the key |
| Reflect.FirstWithKey | pkg/maas/maas.go:118 | `StructTag.Lookup` finds the first pair with the key, and no earlier pair has that key |
| QueryString.Entries | pkg/maas/maas.go:115-124 | each field reduces to its key (none for json `"-"`) and its value, in field order |
| QueryString.Key | pkg/maas/maas.go:117-124 | definition: none for the json tag `"-"`, otherwise the json tag or the field name, lower-cased |
| QueryString.Step | pkg/maas/maas.go:125-134 | definition: one field's effect, `Set` for a scalar and one `Add` per element |
| QueryString.EncodeEntries | pkg/maas/maas.go:113-136 | definition: the fields' steps taken in order from empty values |
| QueryString.AddEach | pkg/maas/maas.go:128-130 | the slice loop performs exactly one `Add` per element, in element order |
| QueryString.EncodeField | pkg/maas/maas.go:115-133 | one field's step: an excluded field leaves the values as they were, its value unread; a field read through a nil pointer panics; otherwise the key is the json tag or the name, lower-cased, and the field is `Set` (a scalar) or `Add`ed element by element (a slice) |
| QueryString.ToQSP | pkg/maas/maas.go:106-137 | the result is the fields' encoding in declaration order, and a pointer encodes like the struct it points to; a nil pointer panics iff some field is encoded |
| QueryString.EncodeByField | pkg/maas/maas.go:115-133 | with distinct keys: every key of the result comes from a field; a field's key is present iff the field has at least one text; the key holds exactly those texts in order (one for a scalar even at its zero value, none for an empty slice, so the key is absent; no fields give no keys) |
| QueryString.EncodeKeysFromEntries | pkg/maas/maas.go:115-133 | no key appears that no field produced |
| QueryString.EncodeByEntry | pkg/maas/maas.go:125-133 | the per-entry form of EncodeByField, proved by induction over the loop |
| QueryString.EntryEncoded | pkg/maas/maas.go:125-133 | with distinct keys, one entry with a key: the key is present iff the entry has a text, and then holds exactly its texts |
| QueryString.StepNewKey | pkg/maas/maas.go:125-133 | a field whose key is new puts exactly its texts under that key, or nothing when it has none |
| QueryString.ExcludedFieldIgnored | pkg/maas/maas.go:118-121 | a field tagged json `"-"` has no effect on the result, wherever it stands among the fields |
| QueryString.NothingEncoded | pkg/maas/maas.go:115-124 | a record whose every field is tagged json `"-"` encodes to no parameters, which is also what a nil pointer to it gives |
| QueryString.KeyKeepsTagOptions | pkg/maas/maas.go:117-124 | the json tag is used whole: `name,options` gives the key `lower(name),lower(options)` |
| QueryString.EncodeEntriesStep | pkg/maas/maas.go:114-134 | the encoding of one more field is one loop step over the encoding before it |
| MachineManagement.Handle | pkg/maas/machine.go:102-108 | a reply that decodes without error appends exactly the decoded machine; a client error or a decoding error is returned and leaves the history as it was |
| MachineManagement.Replay | pkg/maas/machine.go:102-108 | definition: the history after a series of replies, each handled in turn |
| MachineManagement.ReplayOnlyAppends | pkg/maas/machine.go:98-100 | across any series of replies the old history stays a prefix, and the history grows by exactly one state per reply that parsed |
| MachineManagement.ReplayCurrent | pkg/maas/machine.go:94-108 | after a series of replies, the current state is the one parsed from the last reply that parsed |
| MachineManagement.NoSuccesses | pkg/maas/machine.go:102-108 | replies none of which parse append nothing |
| MachineManagement.MachineManager.Init | pkg/maas/machine.go:86-90 | a manager built from a machine has exactly that machine as its history, so it is the current machine and gives the system ID |
| MachineManagement.MachineManager.NewMachineManager | pkg/maas/machine.go:77-91 | it fetches `Get(systemID)`; a fetch or decode error gives no manager and returns the error; otherwise the history is exactly the decoded machine, whose system ID the manager then reports |
| MachineManagement.MachineManager.Current | pkg/maas/machine.go:94-96 | definition: the most recent entry of the history, as `&m.state[len(m.state)-1]` |
| MachineManagement.MachineManager.SystemID | pkg/maas/machine.go:111-113 | definition: the system ID of the current machine |
| MachineManagement.MachineManager.Append | pkg/maas/machine.go:98-100 | the history becomes the old history plus the new state, which becomes the current machine |
| MachineManagement.MachineManager.AppendBytes | pkg/maas/machine.go:102-108 | the new history and error are those of Handle on the parsed bytes |
| MachineManagement.MachineManager.Apply | pkg/maas/machine.go:120-124 | the shared tail of the three operations: the history and error are those of Handle on the reply |
| MachineManagement.MachineManager.Commission | pkg/maas/machine.go:116-125 | it sends Commission with the current system ID and the parameters, and the new history and error are those of Handle on the reply |
| MachineManagement.MachineManager.Deploy | pkg/maas/machine.go:128-137 | the same for Deploy, with the possibly nil parameters passed on |
| MachineManagement.MachineManager.Lock | pkg/maas/machine.go:140-149 | the same for Lock, with the comment |
| MachineManagement.MachineManager.FetchCurrent | pkg/maas/machine.go:160-167 | `update` fetches the current system ID without recording anything: a client error comes with a nil machine; otherwise the decoder's machine, partly decoded when its error is not nil, comes with the decoder's error |
| MachineManagement.MachineManager.Update | pkg/maas/machine.go:152-158 | the history and error are those of Handle on the reply: with no error the returned machine is appended and becomes current; with an error the current machine stays, while the partly decoded machine is still returned |
| GomaasInterface.Compare | vendor/github.com/juju/gomaasapi/interface.go:411 | the version comparison is a three-way order that is 0 exactly on equal versions |
| GomaasInterface.CompareFlip | vendor/github.com/juju/gomaasapi/interface.go:411 | the comparison is antisymmetric |
| GomaasInterface.AtMostTrans | vendor/github.com/juju/gomaasapi/interface.go:411 | "not above" is transitive |
| GomaasInterface.Chosen | vendor/github.com/juju/gomaasapi/interface.go:409-420 | the loop settles on zero or on a registered version above zero and not above the controller's, and every registered version not above the controller's is at most that choice |
| GomaasInterface.Deserializer | vendor/github.com/juju/gomaasapi/interface.go:409-420 | definition: the version the loop settles on, or the unsupported-version error when that is zero |
| GomaasInterface.DeserializerIsLargestEligible | vendor/github.com/juju/gomaasapi/interface.go:409-420 | the choice fails with an unsupported-version error iff no registered version is above zero and not above the controller's; otherwise it is the largest such version, whatever the map's iteration order |
| GomaasInterface.SupportedControllers | vendor/github.com/juju/gomaasapi/interface.go:409-442 | with only 2.0 registered, exactly the controllers from 2.0 up get the 2.0 deserialiser |
| GomaasInterface.GetInterfaceDeserializationFunc | vendor/github.com/juju/gomaasapi/interface.go:409-420 | the loop over the registered versions returns the choice, or the unsupported-version error |
| GomaasInterface.Classify | vendor/github.com/juju/gomaasapi/interface.go:141-153 | status codes map to error kinds per operation: 403 is a permission error; 404 is no-match for Update and Delete and bad-request elsewhere; 400 is bad-request for link and unlink; 409 is bad-request for VLAN creation; 503 is cannot-complete for link and VLAN creation; anything else is unexpected |
| GomaasInterface.ReadInterface | vendor/github.com/juju/gomaasapi/interface.go:379-392 | an unsupported controller version or a decode failure is the error; otherwise the decoded interface |
| GomaasInterface.VlanID | vendor/github.com/juju/gomaasapi/interface.go:123-128 | definition: a nil VLAN counts as id 0, otherwise the VLAN's id |
| GomaasInterface.UpdateParamsKeys | vendor/github.com/juju/gomaasapi/interface.go:136-139 | the update holds name, mac_address and vlan exactly when each is set (a VLAN with id 0 is not sent) and no other key |
| GomaasInterface.UpdateParams | vendor/github.com/juju/gomaasapi/interface.go:136-139 | definition: name, mac_address and the VLAN ID, each added when set |
| GomaasInterface.ValidateLink | vendor/github.com/juju/gomaasapi/interface.go:218-236 | an empty mode is rejected as missing |
| GomaasInterface.ValidateLinkAcceptsExactly | vendor/github.com/juju/gomaasapi/interface.go:218-236 | `Validate` accepts exactly the modes DHCP, LINK_UP and STATIC with a subnet, where an IP address or a default gateway needs STATIC; each rejection names the first rule broken (unknown mode, missing subnet, IP address, gateway) |
| GomaasInterface.LinkParamsContent | vendor/github.com/juju/gomaasapi/interface.go:243-247 | link_subnet sends the mode and the subnet's decimal ID, the IP address only when given and default_gateway only when true |
| GomaasInterface.LinkParams | vendor/github.com/juju/gomaasapi/interface.go:243-247 | definition: the link_subnet parameters |
| GomaasInterface.ValidateVLAN | vendor/github.com/juju/gomaasapi/interface.go:329-334 | the VLAN arguments are valid iff the VLAN is set |
| GomaasInterface.CreateVLANParamsContent | vendor/github.com/juju/gomaasapi/interface.go:346-352 | create_vlan sends the VLAN's decimal ID; parent and MTU only when non-zero; the comma-joined tags only when non-empty; accept_ra and autoconf only when true |
| GomaasInterface.CreateVLANParams | vendor/github.com/juju/gomaasapi/interface.go:346-352 | definition: the create_vlan parameters |
| GomaasInterface.InterfacesURIStripsFirst | vendor/github.com/juju/gomaasapi/interface.go:337-340 | only the first `"/<id>/"` is cut down to `"/"`; the rest of the URI, later occurrences included, is kept |
| GomaasInterface.InterfacesURIUnchanged | vendor/github.com/juju/gomaasapi/interface.go:337-340 | a URI without `"/<id>/"` is left as it is |
| GomaasInterface.InterfacesURI | vendor/github.com/juju/gomaasapi/interface.go:337-340 | definition: the resource URI with the first `"/<id>/"` cut down to `"/"` |
| GomaasInterface.FirstLink | vendor/github.com/juju/gomaasapi/interface.go:271-278 | the result is the first link whose subnet is present with the same ID; none iff no link matches |
| GomaasInterface.FirstLinkSkips | vendor/github.com/juju/gomaasapi/interface.go:271-278 | a link that does not match can be skipped, and a link that matches is the answer |
| GomaasInterface.Interface.FromData | vendor/github.com/juju/gomaasapi/interface.go:379-392 | a new interface holds the decoded data and the given controller |
| GomaasInterface.Interface.UpdateFrom | vendor/github.com/juju/gomaasapi/interface.go:39-52 | every field but the controller is replaced by the other interface's |
| GomaasInterface.Interface.Settle | vendor/github.com/juju/gomaasapi/interface.go:141-158 | after a call, success replaces the fields with the decoded reply; a failure returns the classified error and leaves the interface unchanged |
| GomaasInterface.Interface.Update | vendor/github.com/juju/gomaasapi/interface.go:131-159 | all-empty arguments succeed without a request and change nothing; otherwise the set arguments are PUT to the resource URI, and the reply refreshes the interface or gives the error |
| GomaasInterface.Interface.Delete | vendor/github.com/juju/gomaasapi/interface.go:162-176 | a DELETE of the resource URI; a failure is classified as for Delete |
| GomaasInterface.Interface.LinkSubnet | vendor/github.com/juju/gomaasapi/interface.go:239-269 | invalid arguments return the validation error with no request and no change; otherwise the link parameters are posted, and the reply refreshes the interface or gives the error |
| GomaasInterface.Interface.LinkForSubnet | vendor/github.com/juju/gomaasapi/interface.go:271-278 | the loop returns the first link for the subnet |
| GomaasInterface.Interface.UnlinkSubnet | vendor/github.com/juju/gomaasapi/interface.go:281-311 | a nil subnet or one no link is for is rejected with no request and no change; otherwise the matching link's ID is posted, and the reply refreshes the interface or gives the error |
| GomaasInterface.Interface.CreateVLANInterface | vendor/github.com/juju/gomaasapi/interface.go:342-377 | a missing VLAN is rejected with no request; otherwise the request goes to the interfaces URI, and success yields a new interface with the same controller and the decoded data |
| TerraformState.Get | internal/provider/data_subnet.go:85 | `d.Get` yields the value held for a declared attribute and nil for any other name |
| TerraformState.GetOk | resource_maas_machine.go:556 | `d.GetOk` reports a value only when it is not its type's zero value |
| TerraformState.AsStrings | maas_client.go:223-231 | `.(string)` on each element succeeds iff every element is a string, giving the strings in order |
| TerraformState.ConformingGet | internal/provider/data_subnet.go:85 | a state that conforms to its schema answers every declared attribute with a value of its type |
| TerraformState.UndeclaredPanics | internal/tfschema/network_interface_link.go:36 | an undeclared name reads as nil, and every type assertion on it panics |
| Strings.AtoiItoa | internal/tfschema/network_interface.go:32 | reading back a decimal rendering gives the number, without error |
| PhysicalInterface.GetID | internal/tfschema/network_interface.go:84-92 | an empty system ID is reported first, then a zero interface ID; it succeeds iff both are set |
| PhysicalInterface.ParseID | internal/tfschema/network_interface.go:28-32 | the parse panics iff the ID has no `':'`; otherwise the system ID is the text before the first `':'` and the interface ID is `Atoi` of the rest, its error ignored |
| PhysicalInterface.IDRoundTrip | internal/tfschema/network_interface.go:29-32 | for a system ID without `':'` and a non-zero interface ID, parsing what GetID produced gives back both |
| PhysicalInterface.NonNumericSuffix | internal/tfschema/network_interface.go:32 | a suffix that is not a decimal integer gives interface ID 0 |
| PhysicalInterface.FromState | internal/tfschema/network_interface.go:26-47 | definition: the identifiers, then each attribute in the source's order |
| PhysicalInterface.Tags | internal/tfschema/network_interface.go:42-45 | the tags succeed iff every element is a string, and keep the list's order |
| PhysicalInterface.FromConformingState | internal/tfschema/network_interface.go:26-47 | a state of the resource's schema reads without panic unless system_id is empty and the ID has no `':'`; every attribute is copied |
| PhysicalInterface.SystemIDSetIgnoresID | internal/tfschema/network_interface.go:28-35 | when system_id is set, the resource ID is not consulted |
| PhysicalInterface.ImportRoundTrip | internal/tfschema/network_interface.go:28-35 | an import (empty system_id) of an ID that GetID produced recovers both identifiers |
| PhysicalInterface.NewNetworkInterfacePhysical | internal/tfschema/network_interface.go:26-47 | the step-by-step construction equals the state's reading |
| PhysicalInterface.AppendTags | internal/tfschema/network_interface.go:42-45 | the tag loop equals the tags of the set |
| PhysicalInterface.FailureSticks | internal/tfschema/network_interface.go:42-45 | the first element that is not a string decides the failure |
| PhysicalInterface.Params | internal/tfschema/network_interface.go:50-60 | Params copies name, MAC address, tags, VLAN, MTU, accept_ra and autoconf unchanged |
| PhysicalInterface.ParamsIgnoreIdentity | internal/tfschema/network_interface.go:50-60 | the parameters do not depend on the two identifiers |
| InterfaceLink.GetID | internal/tfschema/network_interface_link.go:55-66 | errors come in the order empty system ID, zero interface ID, zero subnet ID; it succeeds iff all are set |
| InterfaceLink.ParseID | internal/tfschema/network_interface_link.go:27-31 | the parse panics iff the ID has fewer than two `':'`; otherwise parts 0, 1 and 2 of the split give the three identifiers |
| InterfaceLink.NoColonInItoa | internal/tfschema/network_interface_link.go:65 | a decimal rendering contains no `':'` |
| InterfaceLink.IDRoundTrip | internal/tfschema/network_interface_link.go:28-31 | for a system ID without `':'` and non-zero IDs, parsing what GetID produced gives back all three |
| InterfaceLink.NonNumericParts | internal/tfschema/network_interface_link.go:30-31 | parts that are not decimal integers become 0 |
| InterfaceLink.NewNetworkInterfaceLinkAsWritten | internal/tfschema/network_interface_link.go:25-41 | definition: the code as written, which reads the mode from the attribute "name" |
| InterfaceLink.FromState | internal/tfschema/network_interface_link.go:25-41 | definition: the identifiers, then the mode from the given attribute, the IP address, force and the default gateway |
| InterfaceLink.AsWrittenAlwaysPanics | internal/tfschema/network_interface_link.go:36 | the link resource declares no "name", so as written every state of it panics |
| InterfaceLink.NewNetworkInterfaceLink | internal/tfschema/network_interface_link.go:25-41 | the corrected construction reads the mode from "mode" and equals the state's reading |
| InterfaceLink.FromConformingState | internal/tfschema/network_interface_link.go:25-41 | a state of the resource's schema reads without panic unless system_id is empty and the ID has fewer than two `':'`; every attribute is carried over |
| InterfaceLink.SystemIDSetIgnoresID | internal/tfschema/network_interface_link.go:32-35 | when system_id is set, the resource ID is not consulted |
| InterfaceLink.ImportRoundTrip | internal/tfschema/network_interface_link.go:27-35 | an import of an ID that GetID produced recovers all three identifiers |
| InterfaceLink.Params | internal/tfschema/network_interface_link.go:44-52 | Params puts SubnetID under subnet and copies mode, IP address, force and default gateway |
| InterfaceLink.ParamsIgnoreOwner | internal/tfschema/network_interface_link.go:44-52 | the parameters do not depend on the system or interface the link belongs to |
| SchemaParsing.KindType | internal/tfschema/schema.go:71-87 | string maps to TypeString, every signed and unsigned int to TypeInt, bool to TypeBool and the floats to TypeFloat; nothing else has a type |
| SchemaParsing.BoolTagStep | internal/tfschema/schema.go:108-112 | one visited boolean tag sets its property to (value == "true") when present and leaves it otherwise |
| SchemaParsing.SetBoolPropertyOnly | internal/tfschema/schema.go:108-112 | writing one boolean property changes that property only |
| SchemaParsing.ApplyBoolTagsReads | internal/tfschema/schema.go:108-112 | visiting the boolean tags sets each visited property from its tag and touches nothing else |
| SchemaParsing.StringTagStep | internal/tfschema/schema.go:113-117 | one visited string tag copies its value verbatim when present |
| SchemaParsing.SetStringPropertyOnly | internal/tfschema/schema.go:113-117 | writing one string property changes that property only |
| SchemaParsing.ApplyStringTagsReads | internal/tfschema/schema.go:113-117 | visiting the string tags sets each visited property from its tag and touches nothing else |
| SchemaParsing.ApplyTags | internal/tfschema/schema.go:107-119 | after the tags, every property is read from its own tag, and the type, default and state function are untouched |
| SchemaParsing.ApplyTagsReads | internal/tfschema/schema.go:26-37 | every property has its tag in the tables |
| SchemaParsing.DefaultSpec | internal/tfschema/schema.go:90-104 | only the default changes: verbatim for a string; "true" or not for a bool; the decimal parse for an int, failing on bad text; an error for a type without a default |
| SchemaParsing.IntDefaultRoundTrip | internal/tfschema/schema.go:94-96 | an int default written in decimal is read back exactly, without error |
| SchemaParsing.IntDefaultRejectsText | internal/tfschema/schema.go:94-96 | an int default that is not decimal text is an error and leaves the default 0 |
| SchemaParsing.ParseOutcome | internal/tfschema/schema.go:50-63 | Parse fails iff the kind has no type, or an int's default is not decimal; an unsupported kind leaves the schema untouched, so no tag is read |
| SchemaParsing.DefaultOnlyFromTag | internal/tfschema/schema.go:59-61 | the default is set only when a default tag exists |
| SchemaParsing.ParseReadsTags | internal/tfschema/schema.go:55-57 | after a supported kind, every property is read from its tag |
| SchemaParsing.ParseSpec | internal/tfschema/schema.go:50-63 | definition: the type, then the tags, then the default |
| SchemaParsing.Schema.constructor | internal/tfschema/schema.go:22-45 | a new Schema wraps an empty Terraform schema, which TFSchema then returns |
| SchemaParsing.Schema.TFSchema | internal/tfschema/schema.go:66-68 | definition: the wrapped Terraform schema |
| SchemaParsing.Schema.SetValueType | internal/tfschema/schema.go:71-87 | the type is set from the kind, or the error is returned and the schema is left as it was |
| SchemaParsing.Schema.SetDefault | internal/tfschema/schema.go:90-104 | the new schema and error are DefaultSpec of the old |
| SchemaParsing.Schema.ParseTags | internal/tfschema/schema.go:107-119 | the tag loops leave ApplyTags of the old schema and never fail |
| SchemaParsing.Schema.Parse | internal/tfschema/schema.go:50-63 | the type, then the tags, then the default: the new schema and error are ParseSpec of the old |
| ResourceSchema.ParseFieldsOutcome | internal/tfschema/resource.go:23-30 | the fields parse iff each of them does, into one entry per lower-cased name |
| ResourceSchema.ParseFields | internal/tfschema/resource.go:23-30 | definition: the fields parsed in order into one entry per lower-cased name, stopping at the first error |
| ResourceSchema.FirstError | internal/tfschema/resource.go:26-28 | the error is that of the first field that fails |
| ResourceSchema.NewResourceOutcome | internal/tfschema/resource.go:19-48 | NewResource succeeds iff every field and every metadata field parses; the result has one entry per lower-cased field name and none from the metadata |
| ResourceSchema.NewResourceSpec | internal/tfschema/resource.go:19-48 | definition: the fields, then the metadata fields, parsed; the metadata entries are dropped |
| ResourceSchema.LaterFieldWins | internal/tfschema/resource.go:29 | of two fields whose names lower-case alike, the later one's schema is kept |
| ResourceSchema.FailureSticks | internal/tfschema/resource.go:26-28 | a failure in a prefix of the fields is the failure of all of them |
| ResourceSchema.ParseField | internal/tfschema/resource.go:24-28 | one field gives a new Schema holding the field's parsed schema, or the parse error |
| ResourceSchema.ParseFieldsInto | internal/tfschema/resource.go:23-30 | the loop stores each parsed schema under the lower-cased name, as ParseFields says |
| ResourceSchema.NewResource | internal/tfschema/resource.go:19-48 | on any error there is no resource; otherwise the entries are those of NewResourceSpec |
| ResourceSchema.TFResource | internal/tfschema/resource.go:51-58 | the same keys, each with the underlying Terraform schema |
| ResourceTest.FieldSchemaIs | internal/tfschema/resource_test.go:25-49 | a field converts to the expected schema when its kind, tags and default tag say so |
| ResourceTest.IDFieldSchema | internal/tfschema/resource_test.go:26-29 | the ID field converts to its expected schema |
| ResourceTest.NameFieldSchema | internal/tfschema/resource_test.go:30-34 | the Name field converts to its expected schema |
| ResourceTest.TriesFieldSchema | internal/tfschema/resource_test.go:35-39 | the uint8 Tries field converts with the int default 3 |
| ResourceTest.PasswordFieldSchema | internal/tfschema/resource_test.go:40-43 | the Password field converts to its expected schema |
| ResourceTest.DoStuffFieldSchema | internal/tfschema/resource_test.go:44-48 | the bool DoStuff field converts with the default true and its description |
| ResourceTest.ParseFive | internal/tfschema/resource_test.go:25-49 | five fields with the expected schemas build the expected map |
| ResourceTest.NoMetadata | internal/tfschema/resource_test.go:51-71 | an endpoint without metadata converts to what its fields parse to |
| ResourceTest.SimpleStructConverts | internal/tfschema/resource_test.go:51-71 | the sample struct converts to the expected map |
| ProviderSchema.FieldType | internal/provider/toschema.go:34-43 | the kinds map to String, Int (signed and unsigned), Bool and Float; any other kind leaves the type unset |
| ProviderSchema.KindTypesAgree | internal/provider/toschema.go:34-43 | both conversions map kinds alike; where tfschema fails, this one leaves the type unset |
| ProviderSchema.Tagged | internal/provider/toschema.go:46-73 | required, optional, forcenew and computed are true iff their tag is exactly "true"; nothing else is set |
| ProviderSchema.BindStateFuncAsWritten | internal/provider/toschema.go:74-83 | the code as written binds the state function through a type assertion to the named type |
| ProviderSchema.AsWrittenNeverBinds | internal/provider/toschema.go:79 | as written, a field with a statefunc tag never converts: the method is missing, or the assertion panics |
| ProviderSchema.BindStateFunc | internal/provider/toschema.go:74-83 | corrected: no tag binds nothing; a missing method is an error; a method of the StateFunc signature is bound, one of another signature fails the assertion |
| ProviderSchema.BindingDiffersOnlyOnFoundMethod | internal/provider/toschema.go:79 | the correction only changes the outcome where a method of the right signature exists |
| ProviderSchema.ToSchemaOutcome | internal/provider/toschema.go:30-86 | corrected (see Findings): a field fails iff it has a statefunc tag and no method of that signature; the schema holds the type and four flags either way, and the bound method only on success |
| ProviderSchema.OnlyReadTagsMatter | internal/provider/toschema.go:46-83 | fields that agree on the five tags read convert alike; other tags are ignored |
| ProviderSchema.TypeSwitch | internal/provider/toschema.go:34-43 | the switch yields FieldType |
| ProviderSchema.ToSchemaSpec | internal/provider/toschema.go:30-86 | corrected (see Findings): definition: the type, the four flags, then the statefunc binding |
| ProviderSchema.ToSchema | internal/provider/toschema.go:30-86 | corrected (see Findings): the type, the four flags, then the statefunc tag, as ToSchemaSpec |
| ProviderSchema.ReadFlags | internal/provider/toschema.go:30-73 | the type switch and the four boolean tags give exactly Tagged: the type of the kind, and each flag true iff its tag is present with the text "true" |
| ProviderSchema.SchemaMapOutcome | internal/provider/toschema.go:17-24 | corrected (see Findings): the map is built iff every field converts, keyed by the exact field names |
| ProviderSchema.SchemaMap | internal/provider/toschema.go:17-24 | corrected (see Findings): definition: the fields converted in order, stopping at the first error |
| ProviderSchema.SchemaMapEntry | internal/provider/toschema.go:17-24 | a field's entry is the schema converted from it |
| ProviderSchema.SchemaMapFirstError | internal/provider/toschema.go:19-22 | the error is that of the first field that fails |
| ProviderSchema.SchemaMapFailureSticks | internal/provider/toschema.go:19-22 | a failure in a prefix of the fields is the failure of all |
| ProviderSchema.ToSchemaMap | internal/provider/toschema.go:13-26 | corrected (see Findings): the first error gives a nil map; otherwise the map of SchemaMap |
| SubnetLookup.Filters | internal/provider/data_subnet.go:85-92 | the filters read iff name and cidr are strings and vlan an int, and they are those values |
| SubnetLookup.ConformingFilters | internal/provider/data_subnet.go:85-92 | a state of the data source's schema always yields its filters |
| SubnetLookup.IsMatch | internal/provider/data_subnet.go:84-93 | the match succeeds iff the filters read, and is then true iff each filter that is set equals the subnet's name, VLAN ID and CIDR |
| SubnetLookup.EmptyFilterMatchesAll | internal/provider/data_subnet.go:84-92 | with no filter set, every subnet matches |
| SubnetLookup.SetFilterPins | internal/provider/data_subnet.go:86-92 | a filter that is set admits only subnets whose field equals it |
| SubnetLookup.ClearingFilterWidens | internal/provider/data_subnet.go:86-92 | clearing a filter never excludes a subnet that matched |
| SubnetLookup.OwnFieldsMatch | internal/provider/data_subnet.go:86-92 | a subnet matches the filters made of its own fields |
| SubnetLookup.FirstMatch | internal/provider/data_subnet.go:56-80 | the selected subnet matches and no earlier one does; none iff no subnet matches |
| SubnetLookup.Writes | internal/provider/data_subnet.go:60-77 | the six writes for a subnet, in order |
| SubnetLookup.ApplyWrites | internal/provider/data_subnet.go:60-77 | the writes are made in order up to the first refused, which is returned; with none refused all six are made |
| SubnetLookup.ApplyWritesStops | internal/provider/data_subnet.go:60-77 | the first refused write ends the series |
| SubnetLookup.ReadSpec | internal/provider/data_subnet.go:49-82 | corrected (see Findings): definition: the fetch error, "could not find matching subnet", a panic of the filters, a refused write, or the first matching subnet's writes and decimal ID |
| SubnetLookup.RuneString | internal/provider/data_subnet.go:78 | `string(id)` as written is one character, the code point the ID names |
| SubnetLookup.RuneIDIsNotDecimal | internal/provider/data_subnet.go:78 | as written, the resource ID is never the subnet's decimal ID: IDs 0 to 9 give control characters, negative IDs U+FFFD, and longer decimal IDs have more than one character |
| SubnetLookup.RuneIDExample | internal/provider/data_subnet.go:78 | the subnet with ID 5 gets the resource ID U+0005, not "5" |
| SubnetLookup.ReadIDRoundTrip | internal/provider/data_subnet.go:78 | corrected (see Findings): a read that succeeds sets the decimal ID of the first matching subnet, and it reads back as that subnet's ID |
| SubnetLookup.ReadOutcomes | internal/provider/data_subnet.go:49-82 | corrected (see Findings): a fetch error is returned unchanged; "could not find matching subnet" iff no subnet matches; otherwise the writes and the ID come from the first matching subnet |
| SubnetLookup.NoFilterTakesFirst | internal/provider/data_subnet.go:56-80 | corrected (see Findings): with no filter set, Read copies the first subnet listed |
| SubnetLookup.Set | internal/provider/data_subnet.go:60-77 | one `d.Set` of the series: recorded when accepted; when refused, the series stops with the writes so far |
| SubnetLookup.WriteSubnet | internal/provider/data_subnet.go:60-77 | the six calls with early return equal ApplyWrites |
| SubnetLookup.Read | internal/provider/data_subnet.go:49-82 | corrected (see Findings): the loop with early returns equals ReadSpec |
| MachineResource.Flag | resource_maas_machine.go:556-570 | a flag GetOk reports is true |
| MachineResource.ParamsFor | resource_maas_machine.go:556-570 | definition: the parameters built with Add from the flags GetOk reported |
| MachineResource.ReleaseParams | resource_maas_machine.go:556-570 | definition: the three flags read in the order release, secure, quick, then ParamsFor |
| MachineResource.ParamsForContent | resource_maas_machine.go:556-570 | "erase" holds one "true" per reported flag, accumulated with Add in the order release, secure, quick; "secure_erase" and "quick_erase" are present iff their flag is, with "true"; nothing else is sent |
| MachineResource.ReleaseParamsContent | resource_maas_machine.go:556-570 | for a state of the schema the parameters build without panic, and a false flag is never sent |
| MachineResource.ReleaseRequest | resource_maas_machine.go:539-570 | a lookup error is returned; anything but exactly one machine is "machine no longer exists"; otherwise the release parameters |
| MachineResource.OptString | resource_maas_machine.go:644-673 | a string attribute reads as its value, "" when unset |
| MachineResource.OptInt | resource_maas_machine.go:644-673 | an int attribute reads as its value, 0 when unset |
| MachineResource.OptStrings | resource_maas_machine.go:644-673 | a list attribute reads as its strings, in order |
| MachineResource.Attr | resource_maas_machine.go:680 | a block attribute reads iff it is a string |
| MachineResource.FirstZoneName | resource_maas_machine.go:675-681 | no zone gives "" |
| MachineResource.VolumeSpecAsWritten | resource_maas_machine.go:689-696 | the volume conversion as written asserts the tags to `[]string` |
| MachineResource.VolumeAsWrittenPanics | resource_maas_machine.go:694 | as written, no volume converts |
| MachineResource.VolumeExample | resource_maas_machine.go:694 | a concrete volume panics as written and converts once corrected |
| MachineResource.VolumeSpec | resource_maas_machine.go:689-696 | corrected (see Findings): a converted volume carries the block's label, size and tags |
| MachineResource.Storage | resource_maas_machine.go:687-696 | corrected (see Findings): one storage spec per volume, in list order; it fails iff a volume does |
| MachineResource.StorageFailureSticks | resource_maas_machine.go:687-696 | the first volume that fails decides |
| MachineResource.Constraints | resource_maas_machine.go:644-702 | corrected (see Findings): definition: convertConstraints attribute by attribute, in the order it reads them |
| MachineResource.ConstraintsReflectState | resource_maas_machine.go:644-702 | corrected (see Findings): for a state of the `maas_machine` schema that converts: each scalar constraint is the attribute's value (zero when unset); the lists are the attributes' strings in order; the zone is the first zone's name; one storage spec per volume |
| MachineResource.NothingSetNoConstraints | resource_maas_machine.go:644-702 | with nothing set, the constraints are `AllocateMachineArgs{}` |
| MachineResource.ConvertVolumes | resource_maas_machine.go:687-696 | corrected (see Findings): the append loop equals Storage |
| MachineResource.ConvertConstraints | resource_maas_machine.go:644-702 | corrected (see Findings): the field-by-field conversion equals Constraints |
| MachineResource.ByName | resource_maas_machine.go:713-718 | every entry is keyed by its subnet's name |
| MachineResource.ByNameKeys | resource_maas_machine.go:713-718 | the keys are exactly the subnets' names |
| MachineResource.ByNameLastWins | resource_maas_machine.go:713-718 | each key holds the last subnet listed with that name |
| MachineResource.GetSubnets | resource_maas_machine.go:705-721 | a listing error gives no map; otherwise the subnets of every space keyed by name |
| MaasClient.StatusString | maas_client.go:86-92 | the status string is the status's decimal digits followed by ":" |
| MaasClient.StatusStringRoundTrip | maas_client.go:86-92 | the digits read back as the status |
| MaasClient.StatusStringInjective | maas_client.go:86-92 | distinct statuses give distinct strings |
| MaasClient.RefreshStatus | maas_client.go:77-94 | a lookup error gives an empty state and the error; otherwise the status string |
| MaasClient.IntFieldsIfSet | maas_client.go:213-221 | corrected (see Findings): a set int attribute is sent as its decimal text |
| MaasClient.IntFieldsAsWritten | maas_client.go:213-221 | definition: cpu_count and memory as written, read like the string attributes |
| MaasClient.ParseConstraintsAsWritten | maas_client.go:197-236 | definition: parseConstraints as written, asserting cpu_count and memory to be strings |
| MaasClient.ParseConstraints | maas_client.go:197-236 | corrected (see Findings): definition: parseConstraints with cpu_count and memory rendered in decimal |
| MaasClient.AsWrittenIntConstraintPanics | maas_client.go:213-221 | as written, a state of the `maas_instance` schema that sets cpu_count or memory panics |
| MaasClient.ParseConstraintsContent | maas_client.go:197-236 | corrected (see Findings): for a state of the `maas_instance` schema: it panics iff a tag is not a string; otherwise "name" and "arch" are present iff set, holding their whitespace-separated fields; "cpu_count" and "memory" iff set, holding the decimal value, which reads back; "tags" iff the list is not empty, holding its strings in order; no other key |
| MaasClient.ConstraintMapContent | maas_client.go:197-236 | each of the five keys is present exactly when its constraint was set, holding what was set, and there are no other keys |
| MaasClient.InstanceConstraints | maas_client.go:201-227 | corrected (see Findings): for a state of the `maas_instance` schema, hostname and architecture are split into fields when non-empty, cpu_count and memory are rendered in decimal when non-zero, and the tags are reported when the list is not empty, panicking on an element that is not a string |
| MaasClient.TagsCopied | maas_client.go:223-231 | reported tags are copied under "tags" with the same length and order |
| MaasClient.UnsetConstraintsAbsent | maas_client.go:199-235 | the keys are only the five constraints', each present only when its attribute is reported |
| MaasClient.CopyTags | maas_client.go:223-231 | the copy by index equals the list's strings |
| MaasClient.ParseConstraintsInto | maas_client.go:197-236 | corrected (see Findings): the map filled constraint by constraint equals ParseConstraints, and the error is always nil |
| NodeStatus.AllDeclared | pkg/maas/node.go:17-41 | every status is declared |
| NodeStatus.DeclaredOnce | pkg/maas/node.go:17-41 | no status is declared twice |
| NodeStatus.Code | pkg/maas/node.go:17-41 | a status's code is its position in the declaration |
| NodeStatus.FromCode | pkg/maas/entity/node/status.go:17-41 | a code has a status iff it is in the table |
| NodeStatus.CodeAt | pkg/maas/entity/node/status.go:17-41 | the status declared at a position has that code |
| NodeStatus.CodesSequential | pkg/maas/node.go:18-40 | codes run from New = 0 up by one, ending at FailedTesting = 22 |
| NodeStatus.CodeRoundTrip | pkg/maas/entity/node/status.go:18-40 | the code identifies the status, both ways |
| NodeStatus.DefaultIsNew | pkg/maas/node.go:42 | Default is New, with code 0 |
| NodeStatus.TestedCodes | pkg/maas/entity/node/status_test.go:17-23 | Commissioning = 1, Ready = 4, Deployed = 6, Deploying = 9, Allocated = 10 |

## Left out

- Network I/O (the MAAS client, gomaasapi's controller calls, the machine and node lookups,
  `nodeRelease`, listing spaces and subnets) is a parameter or an input result of each
  operation. The request bodies that gomaasapi builds are not modelled.
- `json.Unmarshal` in `NewMachine` is an opaque decoder that yields the machine as far as it
  was decoded together with its error; the juju/schema coercion in `interface_2_0` is an
  opaque partial decoder.
- The Terraform SDK's conversion and checking of `d.Set` values is a `Setter` parameter that
  accepts or refuses each write.
- The `sync.RWMutex` of `MachineManager` is not modelled: the model is sequential.
- The polling with `StateChangeConf`, its timeouts and the wall clock are not modelled.
  `RefreshStatus` models only one refresh.
- Floating point: the float branch of `SetDefault` keeps the default's text and reports no
  error; `fmt.Sprint` of a float field in `ToQSP` is a given text.
- `fmt.Sprint` of any field in `ToQSP` is taken as given, and the model does not render it.
- `ToQSP`'s argument is a struct, a pointer to one, or a nil pointer to one; any other
  argument, which makes `reflect` panic, is not modelled.
- The element type of a list or set attribute is not part of a schema here: `Conforms`
  checks that the attribute holds a list or a set, and a tag that is not a string shows up
  as the panic that `ParseConstraintsContent` and `ConstraintsReflectState` state.
- `UpdateResource` in the two tfschema files writes the state through the SDK and is not
  modelled.
- The Terraform schema declarations, CRUD functions and the other resources are not modelled.
  The SHA-1 user_data state functions, the base64 helpers, `internal/bridge`, the reflection
  copy in `internal/provider/instance.go` and the older duplicate trees are not modelled.
- `expandStringList` is not part of this model: it is taken to assert `.(string)` on each
  element, in order.
- `NewNetworkInterfaceLink`'s `net.ParseIP` is a parameter.
- `LinkSubnetArgs.Validate` on an interface type with a nil subnet is modelled as an absent
  subnet.
- `strings.ToLower` is modelled on ASCII letters only; no other case mapping.
- `unicode.IsSpace` is modelled on the Unicode white-space code points.
- Both status tables are one `Status` datatype, since they declare the same constants in the
  same order.
- The version numbers that `getInterfaceDeserializationFunc` compares have no tag: the order
  is lexicographic on major, minor, patch and build.
- GomaasInterface.ValidateLink: its own contract states only the missing-mode case; the full
  rule set is proved in `ValidateLinkAcceptsExactly`.
- MachineResource.Flag: its own contract states only that a reported flag is true; the
  content of the parameters is proved in `ParamsForContent` and `ReleaseParamsContent`.
- MachineResource.FirstZoneName: its own contract states only the no-zone case; the zone
  constraint is stated in `ConstraintsReflectState`.

## Findings

| source | as written | input that shows it | evidently intended | confidence | as-written member | corrected member |
|---|---|---|---|---|---|---|
| internal/tfschema/network_interface_link.go:36 | the mode is read with `d.Get("name").(string)`, and the link resource declares no attribute "name" | any state of a `maas_interface_link` resource: `d.Get("name")` is nil and the assertion panics | read the mode from "mode" | high, not executed | InterfaceLink.AsWrittenAlwaysPanics | InterfaceLink.FromConformingState |
| maas_client.go:213-221 | cpu_count and memory are asserted `.(string)` although `maas_instance` declares them TypeInt | an instance configuration with `cpu_count = 2` panics | send the int's decimal text | high, not executed | MaasClient.AsWrittenIntConstraintPanics | MaasClient.ParseConstraintsContent |
| internal/provider/toschema.go:79 | the method value is asserted to the defined type `schema.SchemaStateFunc`; a method value's dynamic type is the unnamed func type | a struct with a field tagged `statefunc` and a method `<Field>StateFunc(interface{}) string`: the assertion panics | assert to `func(interface{}) string` and bind it | medium, not executed | ProviderSchema.AsWrittenNeverBinds | ProviderSchema.ToSchemaOutcome |
| internal/provider/data_subnet.go:78 | the resource ID is `string(res[idx].ID)`, the character the ID names | a subnet with ID 5 gets the ID U+0005, not "5" | `strconv.Itoa(res[idx].ID)` | high, not executed | SubnetLookup.RuneIDIsNotDecimal | SubnetLookup.ReadIDRoundTrip |
| resource_maas_machine.go:694 | the volume's tags are asserted `.([]string)`; the SDK hands a list over as `[]interface{}` | a volume `{label "root", size 10, tags ["ssd"]}` panics | convert the list element by element | high, not executed | MachineResource.VolumeAsWrittenPanics | MachineResource.VolumeExample |
