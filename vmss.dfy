/** The scale-set, instance and image-reference converters of
    azure/converters/vmss.go. */
module VmssConverter {
  import opened Wrappers
  import Strings
  import opened Compute
  import opened Infra
  import GalleryIDText

  /** The two literal segments that mark a compute-gallery image ID. */
  const COMPUTE_PROVIDER: string := "Microsoft.Compute"
  const GALLERIES: string := "galleries"

  /** The gallery test at vmss.go:122. Go's `&&` reads `si[7]` only when `si[6]`
      matched, so a 7-segment ID is indexable as long as `si[6]` differs. */
  predicate IsGalleryPath(si: seq<string>)
    requires |si| > 6
    requires si[6] == COMPUTE_PROVIDER ==> |si| > 7
  {
    si[6] == COMPUTE_PROVIDER && si[7] == GALLERIES
  }

  /** An image ID that `SDKImageToImage` can index without a Go index-out-of-range
      panic: empty, or with enough segments for every read it makes. */
  predicate IndexableImageID(id: string)
  {
    id == "" ||
    var si := Strings.Split(id, '/');
    |si| > 6 && (si[6] == COMPUTE_PROVIDER ==> |si| > 7 && (si[7] == GALLERIES ==> |si| > 12))
  }

  /** An image reference that converts without a panic. */
  predicate ConvertibleImage(ref: ImageReference)
  {
    IndexableImageID(ref.ID.GetOr(""))
  }

  /** The image reference of a storage profile, when the whole chain is present. */
  function ProfileImage(sp: Option<StorageProfile>): (ref: Option<ImageReference>)
  {
    if sp.Some? then sp.value.ImageReference else None
  }

  /** The 13 segments of a compute-gallery image-version ID. */
  function GallerySegments(subscription: string, group: string, gallery: string, image: string, version: string): (parts: seq<string>)
  {
    ["", "subscriptions", subscription, "resourceGroups", group, "providers",
     COMPUTE_PROVIDER, GALLERIES, gallery, "images", image, "versions", version]
  }

  /** The ID of a compute-gallery image version built from its parts:
      `/subscriptions/{subscription}/resourceGroups/{group}/providers/Microsoft.Compute/galleries/{gallery}/images/{image}/versions/{version}`. */
  function GalleryImageID(subscription: string, group: string, gallery: string, image: string, version: string): (id: string)
  {
    Strings.Join(GallerySegments(subscription, group, gallery, image, version), '/')
  }

  /** The joined gallery ID, unrolled one segment at a time. */
  lemma GalleryImageIDUnrolled(subscription: string, group: string, gallery: string, image: string, version: string)
    ensures GalleryImageID(subscription, group, gallery, image, version)
         == "/" + ("subscriptions" + "/" + (subscription + "/" + ("resourceGroups" + "/" + (group + "/" + ("providers" + "/" + (COMPUTE_PROVIDER + "/" + (GALLERIES + "/" + (gallery + "/" + ("images" + "/" + (image + "/" + ("versions" + "/" + (version))))))))))))
  {
    var p := GallerySegments(subscription, group, gallery, image, version);
    assert p[12..] == [version];
    Strings.JoinCons(p[11..], '/');
    assert p[11..][1..] == p[12..];
    Strings.JoinCons(p[10..], '/');
    assert p[10..][1..] == p[11..];
    Strings.JoinCons(p[9..], '/');
    assert p[9..][1..] == p[10..];
    Strings.JoinCons(p[8..], '/');
    assert p[8..][1..] == p[9..];
    Strings.JoinCons(p[7..], '/');
    assert p[7..][1..] == p[8..];
    Strings.JoinCons(p[6..], '/');
    assert p[6..][1..] == p[7..];
    Strings.JoinCons(p[5..], '/');
    assert p[5..][1..] == p[6..];
    Strings.JoinCons(p[4..], '/');
    assert p[4..][1..] == p[5..];
    Strings.JoinCons(p[3..], '/');
    assert p[3..][1..] == p[4..];
    Strings.JoinCons(p[2..], '/');
    assert p[2..][1..] == p[3..];
    Strings.JoinCons(p[1..], '/');
    assert p[1..][1..] == p[2..];
    Strings.JoinCons(p[0..], '/');
    assert p[0..][1..] == p[1..];
    assert p[0..] == p;
  }

  /** Regrouping the pieces of a gallery ID, with the separator and the keywords
      kept abstract: first the left-nested sum becomes right-nested, then each
      keyword piece `sl + k + sl` is opened up. */
  lemma GalleryIDRegroup(
    sl: string, k1: string, s: string, k3: string, r: string, k5: string, k6: string, k7: string,
    g: string, k9: string, i: string, k11: string, v: string,
    p1: string, p3: string, p5: string, q5: string, q7: string, p9: string, p11: string)
    requires p1 == sl + k1 + sl && p3 == sl + k3 + sl
    requires p5 == q5 + k6 + q7 && q5 == sl + k5 + sl && q7 == sl + k7 + sl
    requires p9 == sl + k9 + sl && p11 == sl + k11 + sl
    ensures p1 + s + p3 + r + p5 + g + p9 + i + p11 + v
         == sl + (k1 + sl + (s + sl + (k3 + sl + (r + sl + (k5 + sl + (k6 + sl + (k7 + sl
            + (g + sl + (k9 + sl + (i + sl + (k11 + sl + (v))))))))))))
  {
    assert p5 == sl + k5 + sl + k6 + sl + k7 + sl by {
      Assoc(sl + k5 + sl, k6, sl + k7 + sl);
      Assoc(sl + k5 + sl + k6, sl + k7, sl);
      Assoc(sl + k5 + sl + k6, sl, k7);
    }
    // Right-nested suffixes of the textual form.
    var t9 := p11 + v;
    var t8 := i + t9;
    var t7 := p9 + t8;
    var t6 := g + t7;
    var t5 := p5 + t6;
    var t4 := r + t5;
    var t3 := p3 + t4;
    var t2 := s + t3;
    var t1 := p1 + t2;
    assert p1 + s + p3 + r + p5 + g + p9 + i + p11 + v == t1 by {
      Assoc(p1 + s + p3 + r + p5 + g + p9 + i, p11, v);
      Assoc(p1 + s + p3 + r + p5 + g + p9, i, t9);
      Assoc(p1 + s + p3 + r + p5 + g, p9, t8);
      Assoc(p1 + s + p3 + r + p5, g, t7);
      Assoc(p1 + s + p3 + r, p5, t6);
      Assoc(p1 + s + p3, r, t5);
      Assoc(p1 + s, p3, t4);
      Assoc(p1, s, t3);
    }
    // The same suffixes with every keyword piece opened up.
    var n9 := sl + (k11 + sl + v);
    assert t9 == n9 by { Assoc(sl + k11, sl, v); Assoc(sl, k11 + sl, v); }
    var n7 := sl + (k9 + sl + (i + n9));
    assert t7 == n7 by { Assoc(sl + k9, sl, t8); Assoc(sl, k9 + sl, t8); }
    var n5 := sl + (k5 + sl + (k6 + sl + (k7 + sl + (g + n7))));
    assert t5 == n5 by {
      Assoc(sl + k5 + sl + k6 + sl + k7, sl, t6);
      Assoc(sl + k5 + sl + k6 + sl, k7, sl + t6);
      Assoc(sl + k5 + sl + k6, sl, k7 + (sl + t6));
      Assoc(sl + k5 + sl, k6, sl + (k7 + (sl + t6)));
      Assoc(sl + k5, sl, k6 + (sl + (k7 + (sl + t6))));
      Assoc(sl, k5, sl + (k6 + (sl + (k7 + (sl + t6)))));
      Assoc(k7, sl, t6);
      Assoc(k6, sl, k7 + sl + t6);
      Assoc(k5, sl, k6 + sl + (k7 + sl + t6));
    }
    var n3 := sl + (k3 + sl + (r + n5));
    assert t3 == n3 by { Assoc(sl + k3, sl, t4); Assoc(sl, k3 + sl, t4); }
    assert t1 == sl + (k1 + sl + (s + n3)) by { Assoc(sl + k1, sl, t2); Assoc(sl, k1 + sl, t2); }
    assert i + n9 == i + sl + (k11 + sl + v) by { Assoc(i, sl, k11 + sl + v); }
    assert g + n7 == g + sl + (k9 + sl + (i + n9)) by { Assoc(g, sl, k9 + sl + (i + n9)); }
    assert r + n5 == r + sl + (k5 + sl + (k6 + sl + (k7 + sl + (g + n7)))) by { Assoc(r, sl, k5 + sl + (k6 + sl + (k7 + sl + (g + n7)))); }
    assert s + n3 == s + sl + (k3 + sl + (r + n5)) by { Assoc(s, sl, k3 + sl + (r + n5)); }
  }

  /** String concatenation is associative. */
  lemma Assoc(a: string, b: string, c: string)
    ensures a + b + c == a + (b + c)
  {
  }

  /** The textual gallery ID, regrouped segment by segment. */
  lemma GalleryImageIDTextNested(subscription: string, group: string, gallery: string, image: string, version: string)
    ensures "/subscriptions/" + subscription + "/resourceGroups/" + group
            + "/providers/Microsoft.Compute/galleries/" + gallery
            + "/images/" + image + "/versions/" + version
         == "/" + ("subscriptions" + "/" + (subscription + "/" + ("resourceGroups" + "/" + (group + "/" + ("providers" + "/" + ("Microsoft.Compute" + "/" + ("galleries" + "/" + (gallery + "/" + ("images" + "/" + (image + "/" + ("versions" + "/" + (version))))))))))))
  {
    GalleryIDText.SubscriptionsPiece();
    GalleryIDText.ResourceGroupsPiece();
    GalleryIDText.ProvidersPiece();
    GalleryIDText.GalleriesPiece();
    GalleryIDText.ImagesPiece();
    GalleryIDText.VersionsPiece();
    GalleryIDText.ProviderPathPiece();
    GalleryIDRegroup("/", "subscriptions", subscription, "resourceGroups", group, "providers",
                     "Microsoft.Compute", "galleries", gallery, "images", image, "versions", version,
                     "/subscriptions/", "/resourceGroups/", "/providers/Microsoft.Compute/galleries/",
                     "/providers/", "/galleries/", "/images/", "/versions/");
  }

  /** The joined gallery ID is the textual form
      `/subscriptions/{s}/resourceGroups/{r}/providers/Microsoft.Compute/galleries/{g}/images/{i}/versions/{v}`. */
  lemma GalleryImageIDText(subscription: string, group: string, gallery: string, image: string, version: string)
    ensures GalleryImageID(subscription, group, gallery, image, version)
         == "/subscriptions/" + subscription + "/resourceGroups/" + group
            + "/providers/Microsoft.Compute/galleries/" + gallery
            + "/images/" + image + "/versions/" + version
  {
    GalleryImageIDUnrolled(subscription, group, gallery, image, version);
    GalleryImageIDTextNested(subscription, group, gallery, image, version);
  }

  /** SDKImageToImage: an empty ID is a marketplace image; an ID whose segments 6
      and 7 are `Microsoft.Compute` and `galleries` is a compute-gallery image read
      from fixed positions; any other ID gives the zero image. */
  function SDKImageToImage(ref: ImageReference, isThirdPartyImage: bool): (img: Image)
    requires ConvertibleImage(ref)
    ensures !(img.Marketplace.Some? && img.ComputeGallery.Some?)
    ensures img.ID.Some? ==> img.ID.value == ref.ID.GetOr("")
  {
    var imgId := ref.ID.GetOr("");
    if imgId == "" then
      Image(
        ID := Some(imgId),
        Marketplace := Some(MarketplaceImage(
          Plan := ImagePlan(
            Publisher := ref.Publisher.GetOr(""),
            Offer := ref.Offer.GetOr(""),
            SKU := ref.Sku.GetOr("")),
          Version := ref.Version.GetOr(""),
          ThirdPartyImage := isThirdPartyImage)),
        ComputeGallery := None)
    else
      var si := Strings.Split(imgId, '/');
      if IsGalleryPath(si) then
        Image(
          ID := Some(imgId),
          Marketplace := None,
          ComputeGallery := Some(ComputeGalleryImage(
            Gallery := si[8],
            Name := si[10],
            Version := si[12],
            SubscriptionID := Some(si[2]),
            ResourceGroup := Some(si[4]))))
      else
        ZERO_IMAGE
  }

  /** An empty (or absent) ID gives a marketplace image copied field for field,
      with the ID pointing at the empty string and no gallery part. */
  lemma MarketplaceImageCase(ref: ImageReference, isThirdPartyImage: bool)
    requires ref.ID.GetOr("") == ""
    ensures ConvertibleImage(ref)
    ensures var img := SDKImageToImage(ref, isThirdPartyImage);
      && img.ID == Some("")
      && img.ComputeGallery.None?
      && img.Marketplace.Some?
      && img.Marketplace.value.Plan.Publisher == ref.Publisher.GetOr("")
      && img.Marketplace.value.Plan.Offer == ref.Offer.GetOr("")
      && img.Marketplace.value.Plan.SKU == ref.Sku.GetOr("")
      && img.Marketplace.value.Version == ref.Version.GetOr("")
      && img.Marketplace.value.ThirdPartyImage == isThirdPartyImage
  {
  }

  /** A non-empty ID with `Microsoft.Compute` and `galleries` at segments 6 and 7
      gives a compute-gallery image whose five fields are segments 8, 10, 12, 2
      and 4, with the original ID and no marketplace part. */
  lemma GalleryImageCase(ref: ImageReference, isThirdPartyImage: bool)
    requires ConvertibleImage(ref) && ref.ID.GetOr("") != ""
    requires IsGalleryPath(Strings.Split(ref.ID.value, '/'))
    ensures var si := Strings.Split(ref.ID.value, '/');
      SDKImageToImage(ref, isThirdPartyImage) == Image(
        ID := Some(ref.ID.value),
        Marketplace := None,
        ComputeGallery := Some(ComputeGalleryImage(
          Gallery := si[8], Name := si[10], Version := si[12],
          SubscriptionID := Some(si[2]), ResourceGroup := Some(si[4]))))
  {
  }

  /** Any other non-empty ID gives the zero image: no part is set, not even the ID. */
  lemma UnrecognisedImageCase(ref: ImageReference, isThirdPartyImage: bool)
    requires ConvertibleImage(ref) && ref.ID.GetOr("") != ""
    requires !IsGalleryPath(Strings.Split(ref.ID.value, '/'))
    ensures SDKImageToImage(ref, isThirdPartyImage) == ZERO_IMAGE
    ensures SDKImageToImage(ref, isThirdPartyImage).ID.None?
  {
  }

  /** Which part of the image is set is decided by the ID alone: marketplace
      exactly when the ID is empty, compute gallery exactly when it is a gallery
      path, never both, and the ID is set exactly when one of them is. */
  lemma ImageClassification(ref: ImageReference, isThirdPartyImage: bool)
    requires ConvertibleImage(ref)
    ensures var img := SDKImageToImage(ref, isThirdPartyImage);
      var id := ref.ID.GetOr("");
      && (img.Marketplace.Some? <==> id == "")
      && (img.ComputeGallery.Some? <==> id != "" && IsGalleryPath(Strings.Split(id, '/')))
      && (img.ID.Some? <==> img.Marketplace.Some? || img.ComputeGallery.Some?)
      && !(img.Marketplace.Some? && img.ComputeGallery.Some?)
  {
  }

  /** An ID joined from at least 13 slash-free segments with `Microsoft.Compute`
      and `galleries` at positions 6 and 7 is a gallery image made of segments 8,
      10, 12, 2 and 4. No other segment is looked at. */
  lemma {:induction false} GalleryFromSegments(parts: seq<string>, ref: ImageReference, isThirdPartyImage: bool)
    requires |parts| >= 13 && Strings.SeparatorFree(parts, '/')
    requires parts[6] == COMPUTE_PROVIDER && parts[7] == GALLERIES
    requires ref.ID == Some(Strings.Join(parts, '/'))
    ensures ConvertibleImage(ref)
    ensures SDKImageToImage(ref, isThirdPartyImage) == Image(
      ID := ref.ID,
      Marketplace := None,
      ComputeGallery := Some(ComputeGalleryImage(
        Gallery := parts[8], Name := parts[10], Version := parts[12],
        SubscriptionID := Some(parts[2]), ResourceGroup := Some(parts[4]))))
  {
    Strings.SplitJoin(parts, '/');
  }

  /** Round trip: building the gallery ID from slash-free parts and converting it
      gives back exactly those parts. */
  lemma GalleryImageIDRoundTrip(
    subscription: string, group: string, gallery: string, image: string, version: string,
    ref: ImageReference, isThirdPartyImage: bool)
    requires '/' !in subscription && '/' !in group && '/' !in gallery && '/' !in image && '/' !in version
    requires ref.ID == Some("/subscriptions/" + subscription + "/resourceGroups/" + group
                            + "/providers/Microsoft.Compute/galleries/" + gallery
                            + "/images/" + image + "/versions/" + version)
    ensures ConvertibleImage(ref)
    ensures SDKImageToImage(ref, isThirdPartyImage) == Image(
      ID := ref.ID,
      Marketplace := None,
      ComputeGallery := Some(ComputeGalleryImage(
        Gallery := gallery, Name := image, Version := version,
        SubscriptionID := Some(subscription), ResourceGroup := Some(group))))
  {
    GalleryImageIDText(subscription, group, gallery, image, version);
    var parts := GallerySegments(subscription, group, gallery, image, version);
    assert Strings.SeparatorFree(parts, '/');
    GalleryFromSegments(parts, ref, isThirdPartyImage);
  }

  /** The other direction: when a converted gallery ID has exactly the canonical
      13 segments, rebuilding the ID from the image's fields gives the original. */
  lemma GalleryImageIDRebuild(ref: ImageReference, isThirdPartyImage: bool)
    requires ConvertibleImage(ref)
    requires var si := Strings.Split(ref.ID.GetOr(""), '/');
      && |si| == 13 && si[0] == "" && si[1] == "subscriptions" && si[3] == "resourceGroups"
      && si[5] == "providers" && si[9] == "images" && si[11] == "versions"
    requires SDKImageToImage(ref, isThirdPartyImage).ComputeGallery.Some?
    ensures var g := SDKImageToImage(ref, isThirdPartyImage).ComputeGallery.value;
      GalleryImageID(g.SubscriptionID.value, g.ResourceGroup.value, g.Gallery, g.Name, g.Version) == ref.ID.value
  {
    var id := ref.ID.value;
    var si := Strings.Split(id, '/');
    Strings.JoinSplit(id, '/');
    assert GallerySegments(si[2], si[4], si[8], si[10], si[12]) == si;
  }

  /** The provider match is case-sensitive: a lower-case provider segment makes
      the ID unrecognised. */
  lemma {:induction false} ProviderMatchIsCaseSensitive(parts: seq<string>, ref: ImageReference, isThirdPartyImage: bool)
    requires |parts| >= 8 && Strings.SeparatorFree(parts, '/')
    requires parts[6] == "microsoft.compute"
    requires ref.ID == Some(Strings.Join(parts, '/'))
    ensures ConvertibleImage(ref)
    ensures SDKImageToImage(ref, isThirdPartyImage) == ZERO_IMAGE
  {
    Strings.SplitJoin(parts, '/');
  }

  /** An instance that converts without a panic. */
  predicate ConvertibleInstance(vm: VirtualMachineScaleSetVM)
  {
    vm.Properties.Some? && ProfileImage(vm.Properties.value.StorageProfile).Some? ==>
      ConvertibleImage(ProfileImage(vm.Properties.value.StorageProfile).value)
  }

  /** SDKToVMSSVM, written as the source's sequence of conditional assignments to
      a zero-initialised record. */
  function SDKToVMSSVM(vm: VirtualMachineScaleSetVM): (instance: VMSSVM)
    requires ConvertibleInstance(vm)
    ensures instance.ID == vm.ID.GetOr("") && instance.InstanceID == vm.InstanceID.GetOr("")
    ensures vm.Properties.None? ==>
      instance.State == "" && instance.Name == "" && instance.AvailabilityZone == "" && instance.Image == ZERO_IMAGE
    ensures vm.Properties.Some? ==>
      var p := vm.Properties.value;
      && instance.State == (if p.ProvisioningState.Some? then p.ProvisioningState.value else CREATING)
      && instance.Name == (if p.OsProfile.Some? then p.OsProfile.value.ComputerName.GetOr("") else "")
      && instance.AvailabilityZone == (if vm.Zones.Some? && |vm.Zones.value| > 0 then vm.Zones.value[0] else "")
      && instance.Image == (if ProfileImage(p.StorageProfile).Some?
                            then SDKImageToImage(ProfileImage(p.StorageProfile).value, vm.Plan.Some?)
                            else ZERO_IMAGE)
  {
    var instance := VMSSVM(
      ID := vm.ID.GetOr(""), InstanceID := vm.InstanceID.GetOr(""),
      Image := ZERO_IMAGE, Name := "", AvailabilityZone := "", State := "");
    if vm.Properties.None? then instance
    else
      var p := vm.Properties.value;
      var instance := instance.(State := CREATING);
      var instance := if p.ProvisioningState.Some? then instance.(State := p.ProvisioningState.value) else instance;
      var instance := if p.OsProfile.Some? && p.OsProfile.value.ComputerName.Some?
                      then instance.(Name := p.OsProfile.value.ComputerName.value) else instance;
      var instance := if p.StorageProfile.Some? && p.StorageProfile.value.ImageReference.Some?
                      then instance.(Image := SDKImageToImage(p.StorageProfile.value.ImageReference.value, vm.Plan.Some?))
                      else instance;
      if vm.Zones.Some? && |vm.Zones.value| > 0 then instance.(AvailabilityZone := vm.Zones.value[0]) else instance
  }

  /** Without a properties block only the two identifiers are copied: the zone
      list and the plan are not looked at. */
  lemma InstanceWithoutProperties(vm: VirtualMachineScaleSetVM, zones: Option<seq<string>>, plan: Option<Plan>)
    requires vm.Properties.None?
    ensures SDKToVMSSVM(vm) == SDKToVMSSVM(vm.(Zones := zones, Plan := plan))
         == VMSSVM(vm.ID.GetOr(""), vm.InstanceID.GetOr(""), ZERO_IMAGE, "", "", "")
  {
  }

  /** The image reference of a scale set's VM profile, when the whole chain is
      present. */
  function ScaleSetImage(vmss: VirtualMachineScaleSet): (ref: Option<ImageReference>)
    requires vmss.Properties.Some?
  {
    var vp := vmss.Properties.value.VirtualMachineProfile;
    if vp.Some? then ProfileImage(vp.value.StorageProfile) else None
  }

  /** A scale set and instance list that convert without a panic. Go reads
      `sdkvmss.ProvisioningState` through the embedded properties pointer without
      a nil check, so the properties block must be present. */
  predicate ConvertibleScaleSet(vmss: VirtualMachineScaleSet, instances: seq<VirtualMachineScaleSetVM>)
  {
    && vmss.Properties.Some?
    && (ScaleSetImage(vmss).Some? ==> ConvertibleImage(ScaleSetImage(vmss).value))
    && forall i :: 0 <= i < |instances| ==> ConvertibleInstance(instances[i])
  }

  /** SDKToVMSS: projects the scale set's optional fields, converts every instance
      into a freshly allocated array in order, and converts the image only when
      the whole VM-profile chain is present. `MapToTags` is not part of this model
      and is passed in. */
  method SDKToVMSS(
    sdkvmss: VirtualMachineScaleSet,
    sdkinstances: seq<VirtualMachineScaleSetVM>,
    mapToTags: map<string, Option<string>> -> Tags)
    returns (vmss: VMSS)
    requires ConvertibleScaleSet(sdkvmss, sdkinstances)
    ensures vmss.ID == sdkvmss.ID.GetOr("") && vmss.Name == sdkvmss.Name.GetOr("")
    ensures vmss.State == sdkvmss.Properties.value.ProvisioningState.GetOr("")
    ensures sdkvmss.Sku.Some? ==>
      vmss.Sku == sdkvmss.Sku.value.Name.GetOr("") && vmss.Capacity == sdkvmss.Sku.value.Capacity.GetOr(0)
    ensures sdkvmss.Sku.None? ==> vmss.Sku == "" && vmss.Capacity == 0
    ensures vmss.Zones == sdkvmss.Zones.GetOr([])
    ensures vmss.Tags == if |sdkvmss.Tags| > 0 then mapToTags(sdkvmss.Tags) else map[]
    ensures |vmss.Instances| == |sdkinstances|
    ensures forall i :: 0 <= i < |sdkinstances| ==> vmss.Instances[i] == SDKToVMSSVM(sdkinstances[i])
    ensures ScaleSetImage(sdkvmss).Some? ==> vmss.Image == SDKImageToImage(ScaleSetImage(sdkvmss).value, sdkvmss.Plan.Some?)
    ensures ScaleSetImage(sdkvmss).None? ==> vmss.Image == ZERO_IMAGE
  {
    var props := sdkvmss.Properties.value;
    vmss := VMSS(
      ID := sdkvmss.ID.GetOr(""), Name := sdkvmss.Name.GetOr(""), Sku := "", Capacity := 0,
      Zones := [], Image := ZERO_IMAGE, State := props.ProvisioningState.GetOr(""),
      Instances := [], Tags := map[]);

    if sdkvmss.Sku.Some? {
      vmss := vmss.(Sku := sdkvmss.Sku.value.Name.GetOr(""), Capacity := sdkvmss.Sku.value.Capacity.GetOr(0));
    }

    if sdkvmss.Zones.Some? && |sdkvmss.Zones.value| > 0 {
      vmss := vmss.(Zones := sdkvmss.Zones.value);
    }

    if |sdkvmss.Tags| > 0 {
      vmss := vmss.(Tags := mapToTags(sdkvmss.Tags));
    }

    if |sdkinstances| > 0 {
      var instances := new VMSSVM[|sdkinstances|];
      for i := 0 to |sdkinstances|
        invariant forall j :: 0 <= j < i ==> instances[j] == SDKToVMSSVM(sdkinstances[j])
      {
        instances[i] := SDKToVMSSVM(sdkinstances[i]);
      }
      vmss := vmss.(Instances := instances[..]);
    }

    if props.VirtualMachineProfile.Some? &&
       props.VirtualMachineProfile.value.StorageProfile.Some? &&
       props.VirtualMachineProfile.value.StorageProfile.value.ImageReference.Some? {
      var imageRef := props.VirtualMachineProfile.value.StorageProfile.value.ImageReference.value;
      vmss := vmss.(Image := SDKImageToImage(imageRef, sdkvmss.Plan.Some?));
    }
  }
}
