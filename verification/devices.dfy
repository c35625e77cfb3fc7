/** Device tags. The source keeps the tag as a string and compares it with
    "cpu" and "gpu"; the model keeps the two known tags as constructors and
    every other string as `Other`. */
module Devices {

  datatype Device = Cpu | Gpu | Other(name: string) {
    /** `Other` never carries one of the two known tags, so each string has exactly one device. */
    predicate WellFormed()
    {
      Other? ==> name != "cpu" && name != "gpu"
    }
  }

  /** The device a tag string names. */
  function Parse(tag: string): (d: Device)
    ensures d.WellFormed()
    ensures d == Cpu <==> tag == "cpu"
    ensures d == Gpu <==> tag == "gpu"
    ensures d.Other? ==> d.name == tag
  {
    if tag == "cpu" then Cpu else if tag == "gpu" then Gpu else Other(tag)
  }

  /** The tag string the source stores for a device. */
  function Name(d: Device): (tag: string)
    ensures d.WellFormed() ==> Parse(tag) == d
  {
    match d
    case Cpu => "cpu"
    case Gpu => "gpu"
    case Other(n) => n
  }

  /** Parsing the stored tag gives the device back. */
  lemma ParseName(d: Device)
    requires d.WellFormed()
    ensures Parse(Name(d)) == d
  {
  }

  /** Every string is the name of the device it parses to. */
  lemma NameParse(tag: string)
    ensures Name(Parse(tag)) == tag
  {
  }

  /** Comparing tag strings, as the source does, is comparing devices. */
  lemma SameTagSameDevice(a: Device, b: Device)
    requires a.WellFormed() && b.WellFormed()
    ensures Name(a) == Name(b) <==> a == b
  {
    ParseName(a);
    ParseName(b);
  }
}
