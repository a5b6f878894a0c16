/** Devices of the underlying drivers, and the composite devices made of them. */
module DeviceModel {

  import opened Options

  datatype Attribute = Attribute(str: Option<string>, num: Option<int>, flag: Option<bool>)

  /** A device of an underlying driver. */
  datatype Device = Device(pool: string, name: string, attrs: map<string, Attribute>)

  datatype DeviceMember = DeviceMember(source: string, driver: string, deviceClass: string, device: Device)
  datatype Mapping = Mapping(composition: string, members: seq<DeviceMember>, rail: int)
  datatype CompositeDevice = CompositeDevice(name: string, mapping: Mapping)

  function NameOf(cd: CompositeDevice): string { cd.name }
}
