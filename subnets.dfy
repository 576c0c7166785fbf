/** The subnet address extractor of azure/converters/subnets.go. */
module SubnetConverter {
  import opened Wrappers
  import opened Network

  /** GetSubnetAddresses: the single address prefix as a one-element list when it
      is set; otherwise the list of prefixes when that is set; otherwise nothing.
      A nil result is the empty sequence. */
  function GetSubnetAddresses(subnet: Subnet): (addresses: seq<string>)
    ensures subnet.Properties.None? ==> addresses == []
    ensures subnet.Properties.Some? ==>
      var p := subnet.Properties.value;
      && (p.AddressPrefix.Some? ==> addresses == [p.AddressPrefix.value])
      && (p.AddressPrefix.None? && p.AddressPrefixes.Some? ==> addresses == p.AddressPrefixes.value)
      && (p.AddressPrefix.None? && p.AddressPrefixes.None? ==> addresses == [])
  {
    if subnet.Properties.Some? && subnet.Properties.value.AddressPrefix.Some? then
      [subnet.Properties.value.AddressPrefix.GetOr("")]
    else if subnet.Properties.Some? && subnet.Properties.value.AddressPrefixes.Some? then
      subnet.Properties.value.AddressPrefixes.GetOr([])
    else
      []
  }

  /** Every returned address is one the subnet holds, in the single-prefix field
      or in the list. */
  lemma AddressesComeFromSubnet(subnet: Subnet)
    ensures forall a :: a in GetSubnetAddresses(subnet) ==>
      && subnet.Properties.Some?
      && (|| subnet.Properties.value.AddressPrefix == Some(a)
          || (subnet.Properties.value.AddressPrefixes.Some? && a in subnet.Properties.value.AddressPrefixes.value))
  {
  }

  /** When the single prefix is set, the list of prefixes is ignored: replacing it
      by any other value, or removing it, leaves the result unchanged. */
  lemma SinglePrefixWins(props: SubnetPropertiesFormat, prefixes: Option<seq<string>>, id: Option<string>, name: Option<string>)
    requires props.AddressPrefix.Some?
    ensures GetSubnetAddresses(Subnet(id, name, Some(props)))
         == GetSubnetAddresses(Subnet(id, name, Some(props.(AddressPrefixes := prefixes))))
         == [props.AddressPrefix.value]
  {
  }

  /** The three cases of the package's table test: no properties, a single
      prefix, and a list of two prefixes. */
  lemma SubnetTestTable()
    ensures GetSubnetAddresses(Subnet(None, None, None)) == []
    ensures GetSubnetAddresses(Subnet(None, None, Some(SubnetPropertiesFormat(Some("test-address-prefix"), None))))
         == ["test-address-prefix"]
    ensures GetSubnetAddresses(Subnet(None, None, Some(SubnetPropertiesFormat(
              None, Some(["test-address-prefix-1", "test-address-prefix-2"])))))
         == ["test-address-prefix-1", "test-address-prefix-2"]
  {
  }
}
