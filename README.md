# Cloud-SDK converters for scale sets, instances, images and subnets

This project models the data-mapping layer of `azure/converters` of the Azure
cluster-API provider and proves properties of it in Dafny. That layer turns
compute and network SDK records, where every field is an optional pointer, into
the provider's internal records:

- `SDKToVMSS` turns a virtual-machine scale set and its list of instances into an
  `azure.VMSS` record.
- `SDKToVMSSVM` turns one scale-set instance into an `azure.VMSSVM` record.
- `SDKImageToImage` classifies an image reference. An empty ID gives a
  marketplace image. An ID whose `/`-separated segments 6 and 7 are
  `Microsoft.Compute` and `galleries` gives a compute-gallery image, read from
  segments 8, 10, 12, 2 and 4. Any other ID gives the zero image.
- `GetSubnetAddresses` turns a subnet's single address prefix, or its list of
  prefixes, into one list.

Layout:

- `wrappers.dfy` (module `Wrappers`): `Option`. `GetOr(zero)` stands for the
  go-autorest `to.String`, `to.Int64` and `to.StringSlice` helpers, which turn
  nil into the zero value.
- `strings.dfy` (module `Strings`): Go's `strings.Split` and `strings.Join` for a
  one-character separator, with both round-trip lemmas.
- `sdk.dfy` (modules `Compute`, `Network`): the SDK records, reduced to the
  fields the converters read.
- `infra.dfy` (module `Infra`): `Image`, `VMSSVM`, `VMSS`, and the `CREATING`
  provisioning state.
- `vmss.dfy` (module `VmssConverter`): the three converters of
  `azure/converters/vmss.go` and the lemmas about image classification.
- `gallery_text.dfy` (module `GalleryIDText`): facts about the string literals of
  the textual gallery ID, used to prove that the `/`-join of the 13 gallery
  segments is that text.
- `subnets.dfy` (module `SubnetConverter`): `GetSubnetAddresses`.

`SDKToVMSS` is a method. Like the source, it allocates an array of instances and
fills it in a loop. Its postcondition ties every element, in order, to
`SDKToVMSSVM`. The other converters are functions.

The source can panic in two ways, and both are preconditions here:

- An index out of range on a short image ID (`vmss.go:122-127`).
  `IndexableImageID` rules it out. Go's `&&` reads segment 7 only when segment 6
  matches, so the precondition follows that order. The ID needs at least 7
  segments, at least 8 when segment 6 is `Microsoft.Compute`, and at least 13 in
  the gallery branch. The image converter can be reached from three places, so
  this is required at three levels: `ConvertibleImage` for one image reference,
  `ConvertibleInstance` for an instance's reference, and `ConvertibleScaleSet` for
  the scale set's reference and every instance.
- A nil embedded properties pointer on the scale set (`vmss.go:35`, `vmss.go:58`).
  The code reads `ProvisioningState` and `VirtualMachineProfile` through it
  without a nil check, so `ConvertibleScaleSet` requires the properties block.

`vmss.go` has no validating ID parser and no shared-gallery placeholder. It
splits with `strings.Split`, which keeps the leading empty segment, so the
subscription is segment 2. It compares the two literal segments
case-sensitively (`ProviderMatchIsCaseSensitive`). It never checks the segments
`subscriptions`, `resourceGroups`, `providers`, `images` or `versions`
(`GalleryFromSegments`).

## Model

| member | source | states |
|---|---|---|
| `Strings.Split` | azure/converters/vmss.go:121 | `strings.Split(id, "/")` yields at least one segment, and no segment contains `/` |
| `Strings.JoinSplit` | azure/converters/vmss.go:121 | joining the split segments with `/` gives back the original ID, so no character is lost or reordered |
| `Strings.SplitJoin` | azure/converters/vmss.go:121 | splitting a `/`-join of slash-free segments gives back exactly those segments, empty ones included |
| `VmssConverter.SDKImageToImage` | azure/converters/vmss.go:102-142 | the marketplace and compute-gallery parts are never both set, and an ID that is set is the reference's ID |
| `VmssConverter.MarketplaceImageCase` | azure/converters/vmss.go:103-118 | an absent or empty ID gives ID `""`, no gallery part, and a marketplace part with Publisher, Offer, SKU and Version copied (absent becomes `""`) and ThirdPartyImage equal to the flag |
| `VmssConverter.GalleryImageCase` | azure/converters/vmss.go:121-138 | a non-empty ID with `Microsoft.Compute`/`galleries` at segments 6/7 gives the original ID, no marketplace part, and Gallery, Name, Version, SubscriptionID and ResourceGroup from segments 8, 10, 12, 2 and 4 |
| `VmssConverter.UnrecognisedImageCase` | azure/converters/vmss.go:121-141 | any other non-empty ID gives the zero image, whose ID is absent |
| `VmssConverter.ImageClassification` | azure/converters/vmss.go:105-141 | marketplace is set iff the ID is empty; compute gallery is set iff the ID is a non-empty gallery path; the ID is set iff one of them is; never both |
| `VmssConverter.GalleryFromSegments` | azure/converters/vmss.go:121-138 | for any ID joined from 13 or more slash-free segments with the two literals at 6 and 7, the ID is indexable and the gallery fields are segments 8, 10, 12, 2 and 4; no other segment is checked |
| `VmssConverter.GalleryImageIDText` | azure/converters/vmss.go:121-127 | the `/`-join of the 13 gallery segments is exactly the text `/subscriptions/s/resourceGroups/r/providers/Microsoft.Compute/galleries/g/images/i/versions/v`, so the positions read at lines 123-127 are those of that text |
| `VmssConverter.GalleryImageIDRoundTrip` | azure/converters/vmss.go:121-138 | the literal string `"/subscriptions/"+s+"/resourceGroups/"+r+"/providers/Microsoft.Compute/galleries/"+g+"/images/"+i+"/versions/"+v` with slash-free parts converts to exactly (s, r, g, i, v), keeping the ID and no marketplace part |
| `VmssConverter.GalleryImageIDRebuild` | azure/converters/vmss.go:121-138 | when a converted gallery ID has exactly the canonical 13 segments, rebuilding the ID from the image's five fields gives the original ID |
| `VmssConverter.ProviderMatchIsCaseSensitive` | azure/converters/vmss.go:122 | an ID whose segment 6 is `microsoft.compute` in lower case gives the zero image |
| `VmssConverter.SDKToVMSSVM` | azure/converters/vmss.go:69-99 | ID and InstanceID are copied (absent becomes `""`); with properties, State is the provisioning state or `Creating` when it is absent, Name is the OS-profile computer name, AvailabilityZone is the first zone of a non-empty list, and Image is converted with third-party equal to `Plan` present only when the storage-profile chain is complete; otherwise the zero image |
| `VmssConverter.InstanceWithoutProperties` | azure/converters/vmss.go:70-77 | without a properties block only ID and InstanceID are set; State, Name, AvailabilityZone and Image stay empty whatever the zones and plan are |
| `VmssConverter.SDKToVMSS` | azure/converters/vmss.go:31-66 | ID, Name and State are copied (absent becomes `""`); Sku and Capacity come from the SKU block only when it is present, else `""` and 0; Zones are copied; Tags are `MapToTags` of a non-empty tag map, else empty; Instances has the input's length and element i is `SDKToVMSSVM` of input i; Image is converted with third-party equal to `Plan` present only when the VM-profile chain is complete, else the zero image |
| `SubnetConverter.GetSubnetAddresses` | azure/converters/subnets.go:24-32 | a set single prefix gives a one-element list holding it; otherwise a set prefix list is returned unchanged and in order; with no properties block or neither field set the result is empty |
| `SubnetConverter.AddressesComeFromSubnet` | azure/converters/subnets.go:25-31 | every returned address is the subnet's single prefix or an element of its prefix list |
| `SubnetConverter.SinglePrefixWins` | azure/converters/subnets.go:26-29 | when the single prefix is set, the prefix list is ignored: any other list, or none, gives the same one-element result |
| `SubnetConverter.SubnetTestTable` | azure/converters/subnets_test.go:28-54 | the three table cases: no properties gives nothing, a single prefix gives that one prefix, a list of two gives both in order |

## Left out

- The error log at `vmss.go:139` when an ID is not a gallery path is a logging side effect. Only the zero-image result is modelled.
- `MapToTags` (`vmss.go:48`) is not part of this model. `SDKToVMSS` takes it as a function parameter and states only when it is applied.
- The go-autorest `to.*` helpers are not modelled as a library. Each one is an inline `GetOr` with the zero value.
- Go panics are preconditions, not behaviour: a short image ID, and a scale set without its properties block.
- `SDKImageToImage` takes the image reference by value. Both callers pass its pointer only after a nil check (`vmss.go:58-60`, `vmss.go:88`), so a nil reference cannot occur here.
- A nil slice or map and an empty one are the same value here (`[]`, `map[]`). The converters only test their length, but `GetSubnetAddresses` returns an empty, non-nil slice for an empty prefix list, and the model does not tell that apart from nil.
- Pointers in the output records (`ID: &imgId`, `ResourceGroup: &rgName`, the returned `*azure.VMSS`) are values. Aliasing is not modelled.
- Fields of the SDK and internal records that these files neither read nor write are left out, among them the image's shared-gallery part and the gallery image's plan.
- Capacity is a Go int64 (`Compute.Int64`). Nothing here does arithmetic on it.
