/** The parts of the cloud SDK's compute records that the converters read. Every
    Go pointer field is an `Option`; a Go `[]string` is a `seq<string>` (a nil
    slice and an empty one are both `[]`). */
module Compute {
  import opened Wrappers

  /** Go's int64. */
  type Int64 = x: int | -0x8000_0000_0000_0000 <= x < 0x8000_0000_0000_0000

  /** compute.ImageReference: either a resource ID or marketplace coordinates. */
  datatype ImageReference = ImageReference(
    ID: Option<string>,
    Publisher: Option<string>,
    Offer: Option<string>,
    Sku: Option<string>,
    Version: Option<string>)

  /** compute.Plan: only its presence matters to the converters. */
  datatype Plan = Plan(Name: Option<string>, Publisher: Option<string>, Product: Option<string>)

  /** compute.Sku of a scale set. */
  datatype Sku = Sku(Name: Option<string>, Tier: Option<string>, Capacity: Option<Int64>)

  /** compute.VirtualMachineScaleSetStorageProfile / compute.StorageProfile. */
  datatype StorageProfile = StorageProfile(ImageReference: Option<ImageReference>)

  /** compute.VirtualMachineScaleSetVMProfile. */
  datatype ScaleSetVMProfile = ScaleSetVMProfile(StorageProfile: Option<StorageProfile>)

  /** compute.VirtualMachineScaleSetProperties (embedded by pointer in the scale set). */
  datatype ScaleSetProperties = ScaleSetProperties(
    ProvisioningState: Option<string>,
    VirtualMachineProfile: Option<ScaleSetVMProfile>)

  /** compute.VirtualMachineScaleSet. `Tags` is Go's `map[string]*string`. */
  datatype VirtualMachineScaleSet = VirtualMachineScaleSet(
    ID: Option<string>,
    Name: Option<string>,
    Sku: Option<Sku>,
    Plan: Option<Plan>,
    Zones: Option<seq<string>>,
    Tags: map<string, Option<string>>,
    Properties: Option<ScaleSetProperties>)

  /** compute.OSProfile. */
  datatype OSProfile = OSProfile(ComputerName: Option<string>)

  /** compute.VirtualMachineScaleSetVMProperties (embedded by pointer in the instance). */
  datatype ScaleSetVMProperties = ScaleSetVMProperties(
    ProvisioningState: Option<string>,
    OsProfile: Option<OSProfile>,
    StorageProfile: Option<StorageProfile>)

  /** compute.VirtualMachineScaleSetVM: one instance of a scale set. */
  datatype VirtualMachineScaleSetVM = VirtualMachineScaleSetVM(
    ID: Option<string>,
    InstanceID: Option<string>,
    Plan: Option<Plan>,
    Zones: Option<seq<string>>,
    Properties: Option<ScaleSetVMProperties>)
}

/** The part of the SDK's network records that the subnet converter reads. */
module Network {
  import opened Wrappers

  /** network.SubnetPropertiesFormat. */
  datatype SubnetPropertiesFormat = SubnetPropertiesFormat(
    AddressPrefix: Option<string>,
    AddressPrefixes: Option<seq<string>>)

  /** network.Subnet, whose properties block is embedded by pointer. */
  datatype Subnet = Subnet(ID: Option<string>, Name: Option<string>, Properties: Option<SubnetPropertiesFormat>)
}
