/** The internal records the converters produce (infrav1.Image, azure.VMSS,
    azure.VMSSVM), reduced to the fields the converters write. */
module Infra {
  import opened Wrappers
  import Compute

  /** infrav1.ProvisioningState is a string type. */
  type ProvisioningState = string

  /** infrav1.Creating. */
  const CREATING: ProvisioningState := "Creating"

  /** infrav1.ImagePlan. */
  datatype ImagePlan = ImagePlan(Publisher: string, Offer: string, SKU: string)

  /** infrav1.AzureMarketplaceImage. */
  datatype MarketplaceImage = MarketplaceImage(Plan: ImagePlan, Version: string, ThirdPartyImage: bool)

  /** infrav1.AzureComputeGalleryImage. */
  datatype ComputeGalleryImage = ComputeGalleryImage(
    Gallery: string,
    Name: string,
    Version: string,
    SubscriptionID: Option<string>,
    ResourceGroup: Option<string>)

  /** infrav1.Image: three independent optional parts, not a tagged union. */
  datatype Image = Image(
    ID: Option<string>,
    Marketplace: Option<MarketplaceImage>,
    ComputeGallery: Option<ComputeGalleryImage>)

  /** The zero value `infrav1.Image{}`. */
  const ZERO_IMAGE: Image := Image(None, None, None)

  /** infrav1.Tags. */
  type Tags = map<string, string>

  /** azure.VMSSVM, one converted instance. Its zero value has empty strings
      and the zero image. */
  datatype VMSSVM = VMSSVM(
    ID: string,
    InstanceID: string,
    Image: Image,
    Name: string,
    AvailabilityZone: string,
    State: ProvisioningState)

  /** azure.VMSS, one converted scale set. */
  datatype VMSS = VMSS(
    ID: string,
    Name: string,
    Sku: string,
    Capacity: Compute.Int64,
    Zones: seq<string>,
    Image: Image,
    State: ProvisioningState,
    Instances: seq<VMSSVM>,
    Tags: Tags)
}
