/** The stateless decisions of the app's smartstrap handlers: which read
    completions are accepted, what a notification triggers, and what an
    availability report records. */
module Router {
  import opened Attributes
  import opened Codec
  import opened Wrappers

  /** Connection status as shown to the user. */
  datatype Status = Docked | Undocked

  /** What a notification on an attribute makes the app do. */
  datatype Reaction = AnnounceTime | ReadUptime | Ignore

  /** The read-completion filter and decoder: a completion yields a value only
      when it is for the uptime attribute, succeeded, and carries exactly the
      declared four bytes; the value is those bytes as a host-order uint32. */
  function ReadCompletion(attr: Attribute, result: SmartstrapResult, data: seq<Byte>): (v: Option<nat>)
    ensures v.Some? <==> attr == Table(Uptime) && result == Ok && |data| == Table(Uptime).length
    ensures v.Some? ==> v.value < U32Limit && EncodeLE(v.value, 4) == data
  {
    if attr != Table(Uptime) then None
    else if result != Ok then None
    else if |data| != 4 then None
    else Some(DecodeU32(data))
  }

  /** An accepted uptime value is decoded losslessly: the accessory's
      little-endian encoding of any uint32 comes back as that number. */
  lemma UptimeRoundTrip(n: nat)
    requires n < U32Limit
    ensures ReadCompletion(Table(Uptime), Ok, EncodeLE(n, 4)) == Some(n)
  {
    DecodeU32Bijective(n);
  }

  lemma UptimeExample()
    ensures ReadCompletion(Table(Uptime), Ok, [0x64, 0, 0, 0]) == Some(100)
    ensures ReadCompletion(Table(Uptime), Ok, [0x64, 0, 0]) == None
    ensures ReadCompletion(Table(Uptime), Failed(1), [0x64, 0, 0, 0]) == None
    ensures ReadCompletion(Table(Sound), Ok, [0x64, 0, 0, 0]) == None
  {
    DecodeU32Example();
  }

  /** The notification router: the ultrasound attribute announces the time,
      the uptime attribute asks for its value, anything else is ignored. */
  function Route(attr: Attribute): (r: Reaction)
    ensures r == AnnounceTime <==> attr == Table(Ultrasound)
    ensures r == ReadUptime <==> attr == Table(Uptime)
    ensures r == Ignore <==> attr != Table(Uptime) && attr != Table(Ultrasound)
  {
    TableInjective(Uptime, Ultrasound);
    if attr == Table(Ultrasound) then AnnounceTime
    else if attr == Table(Uptime) then ReadUptime
    else Ignore
  }

  /** The status recorded after an availability report. */
  function AvailabilityAfter(current: Status, service: nat, available: bool): (s: Status)
    ensures service != ServiceId ==> s == current
    ensures service == ServiceId ==> (s == Docked <==> available)
  {
    if service != ServiceId then current
    else if available then Docked
    else Undocked
  }

  /** A repeated identical report changes nothing further. */
  lemma AvailabilityIdempotent(current: Status, service: nat, available: bool)
    ensures AvailabilityAfter(AvailabilityAfter(current, service, available), service, available)
         == AvailabilityAfter(current, service, available)
  {
  }

  /** The status after a report for the dock's service does not depend on
      the status before it. */
  lemma AvailabilityOverrides(s1: Status, s2: Status, available: bool)
    ensures AvailabilityAfter(s1, ServiceId, available) == AvailabilityAfter(s2, ServiceId, available)
  {
  }
}
