/** The attribute registry of the smartstrap service: five fixed-length
    attributes on one service, and the result codes the link reports. */
module Attributes {
  import Wrappers

  /** One octet on the wire (the SDK's uint8_t). */
  type Byte = b: int | 0 <= b < 256

  /** The service every attribute of the dock lives on. */
  const ServiceId: nat := 0x1001

  /** The five attributes the watch app creates at start-up. */
  datatype Kind = Sound | Uptime | SayTime | Renotify | Ultrasound

  /** What a smartstrap attribute handle identifies: a service, an attribute
      id on it, and the fixed payload length it was created with. */
  datatype Attribute = Attribute(service: nat, id: nat, length: nat)

  /** Result of a call into the smartstrap link; every code other than Ok is
      treated alike by the app, so the model keeps only the numeric code. */
  datatype SmartstrapResult = Ok | Failed(code: int)

  /** The declared attribute of each kind: service id, attribute id and
      payload length, as created at start-up. */
  function Table(k: Kind): (a: Attribute)
    ensures a.service == ServiceId
    ensures 1 <= a.id <= 5 && 1 <= a.length <= 4
  {
    match k
    case Sound      => Attribute(ServiceId, 0x0001, 1)
    case Uptime     => Attribute(ServiceId, 0x0002, 4)
    case SayTime    => Attribute(ServiceId, 0x0003, 2)
    case Renotify   => Attribute(ServiceId, 0x0004, 1)
    case Ultrasound => Attribute(ServiceId, 0x0005, 1)
  }

  /** The kind an attribute id on the dock's service denotes, if any. */
  function KindOfId(service: nat, id: nat): (k: Wrappers.Option<Kind>)
    ensures k.Some? ==> Table(k.value).service == service && Table(k.value).id == id
  {
    if service != ServiceId then Wrappers.None
    else if id == 1 then Wrappers.Some(Sound)
    else if id == 2 then Wrappers.Some(Uptime)
    else if id == 3 then Wrappers.Some(SayTime)
    else if id == 4 then Wrappers.Some(Renotify)
    else if id == 5 then Wrappers.Some(Ultrasound)
    else Wrappers.None
  }

  /** Every declared attribute is found again from its service and id, so no
      two kinds share an identity. */
  lemma KindOfIdInverts(k: Kind)
    ensures KindOfId(Table(k).service, Table(k).id) == Wrappers.Some(k)
  {
  }

  /** Distinct kinds have distinct attribute ids, hence distinct handles. */
  lemma TableInjective(k1: Kind, k2: Kind)
    ensures Table(k1).id == Table(k2).id <==> k1 == k2
    ensures Table(k1) == Table(k2) <==> k1 == k2
  {
    KindOfIdInverts(k1);
    KindOfIdInverts(k2);
  }

  /** The ids are 1 to 5 and the lengths 1, 4, 2, 1 and 1. */
  lemma TableValues()
    ensures Table(Sound).id == 1 && Table(Sound).length == 1
    ensures Table(Uptime).id == 2 && Table(Uptime).length == 4
    ensures Table(SayTime).id == 3 && Table(SayTime).length == 2
    ensures Table(Renotify).id == 4 && Table(Renotify).length == 1
    ensures Table(Ultrasound).id == 5 && Table(Ultrasound).length == 1
  {
  }
}
