/** The app's smartstrap session: the attribute handles it creates, the
    docked status it shows, and what it has asked the link to send and read.
    Results of the SDK calls (begin_write, end_write) are supplied by the
    caller; the clock's hour and minute likewise. */
module Session {
  import opened Attributes
  import opened Codec
  import opened Router
  import opened Wrappers

  /** One call of end_write: the attribute, the bytes of the buffer it sends,
      the length passed, whether a read should follow the write, and the link's
      answer. */
  datatype WriteRecord = WriteRecord(attr: Attribute, bytes: seq<Byte>, length: nat,
                                     requestRead: bool, outcome: SmartstrapResult)

  /** What one begin/fill/end exchange adds to the write log: nothing when
      begin_write fails, otherwise one write of the whole payload with no
      follow-up read, whatever end_write answers. */
  function Exchange(attr: Attribute, begin: SmartstrapResult, payload: seq<Byte>,
                    end: SmartstrapResult): (log: seq<WriteRecord>)
    ensures begin != Ok ==> log == []
    ensures begin == Ok ==> |log| == 1 && log[0].attr == attr && log[0].bytes == payload
                            && log[0].length == |payload| && !log[0].requestRead && log[0].outcome == end
  {
    if begin != Ok then [] else [WriteRecord(attr, payload, |payload|, false, end)]
  }

  /** A write the app may issue: to one of its three writable attributes,
      within the declared length, never requesting a follow-up read. */
  predicate WellFormedWrite(w: WriteRecord)
  {
    w.attr in {Table(Sound), Table(Kind.SayTime), Table(Renotify)}
    && |w.bytes| == w.length <= w.attr.length && !w.requestRead
  }

  /** The writes of every exchange are well formed. */
  lemma ExchangeWellFormed(k: Kind, begin: SmartstrapResult, payload: seq<Byte>, end: SmartstrapResult)
    requires k in {Sound, Kind.SayTime, Renotify} && |payload| == Table(k).length
    ensures forall i :: 0 <= i < |Exchange(Table(k), begin, payload, end)| ==>
              WellFormedWrite(Exchange(Table(k), begin, payload, end)[i])
  {
  }

  class Session {
    const sound: Attribute
    const uptime: Attribute
    const sayTime: Attribute
    const renotify: Attribute
    const ultrasound: Attribute

    var status: Status
    var transmitted: seq<WriteRecord>
    var readRequests: seq<Attribute>

    ghost predicate Valid()
      reads this
    {
      sound == Table(Sound) && uptime == Table(Uptime) && sayTime == Table(Kind.SayTime)
      && renotify == Table(Renotify) && ultrasound == Table(Ultrasound)
      && (forall i :: 0 <= i < |transmitted| ==> WellFormedWrite(transmitted[i]))
      && (forall i :: 0 <= i < |readRequests| ==> readRequests[i] == Table(Uptime))
    }

    /** Creates the five attributes and records the status the link reports
        for the dock's service when the window is loaded. */
    constructor (available: bool)
      ensures Valid()
      ensures status == (if available then Docked else Undocked)
      ensures transmitted == [] && readRequests == []
    {
      sound := Table(Sound);
      uptime := Table(Uptime);
      sayTime := Table(Kind.SayTime);
      renotify := Table(Renotify);
      ultrasound := Table(Ultrasound);
      status := AvailabilityAfter(Undocked, ServiceId, available);
      transmitted := [];
      readRequests := [];
    }

    /** The availability handler. */
    method AvailabilityChanged(service: nat, available: bool)
      requires Valid()
      modifies this`status
      ensures Valid()
      ensures status == AvailabilityAfter(old(status), service, available)
    {
      if service != ServiceId {
        return;
      }
      if available {
        status := Docked;
      } else {
        status := Undocked;
      }
    }

    /** The read-completion handler: it changes nothing and yields the
        uptime value only for an accepted completion. */
    method DidRead(attr: Attribute, result: SmartstrapResult, data: seq<Byte>)
      returns (value: Option<nat>)
      requires Valid()
      ensures value == ReadCompletion(attr, result, data)
    {
      if attr != uptime {
        return None;
      }
      if result != Ok {
        return None;
      }
      if |data| != Table(Uptime).length {
        return None;
      }
      value := Some(DecodeU32(data));
    }

    /** The buffer begin_write hands out: as long as the attribute. */
    method BeginWrite(attr: Attribute) returns (buffer: array<Byte>)
      ensures fresh(buffer) && buffer.Length == attr.length
    {
      buffer := new Byte[attr.length];
    }

    /** end_write: sends the first length bytes of the buffer. */
    method EndWrite(attr: Attribute, buffer: array<Byte>, length: nat, requestRead: bool,
                    outcome: SmartstrapResult)
      requires length <= buffer.Length
      modifies this`transmitted
      ensures transmitted == old(transmitted) + [WriteRecord(attr, buffer[..length], length, requestRead, outcome)]
    {
      transmitted := transmitted + [WriteRecord(attr, buffer[..length], length, requestRead, outcome)];
    }

    /** Sends the time of day, sampled after begin_write succeeds, to the
        say-time attribute. */
    method SayTime(hour: int, minute: int, begin: SmartstrapResult, end: SmartstrapResult)
      requires Valid()
      modifies this`transmitted
      ensures Valid()
      ensures transmitted == old(transmitted) + Exchange(sayTime, begin, SayTimePayload(hour, minute), end)
    {
      if begin != Ok {
        return;
      }
      var buffer := BeginWrite(sayTime);
      buffer[0] := Truncate(hour);
      buffer[1] := Truncate(minute);
      assert buffer[..2] == SayTimePayload(hour, minute);
      EndWrite(sayTime, buffer, 2, false, end);
    }

    /** Fires the accessory's sound. */
    method MakeSound(begin: SmartstrapResult, end: SmartstrapResult)
      requires Valid()
      modifies this`transmitted
      ensures Valid()
      ensures transmitted == old(transmitted) + Exchange(sound, begin, SoundPayload(), end)
    {
      if begin != Ok {
        return;
      }
      var buffer := BeginWrite(sound);
      buffer[0] := 1;
      assert buffer[..1] == SoundPayload();
      EndWrite(sound, buffer, 1, false, end);
    }

    /** Tells the accessory a notification started or ended. */
    method ReNotify(startNotify: bool, begin: SmartstrapResult, end: SmartstrapResult)
      requires Valid()
      modifies this`transmitted
      ensures Valid()
      ensures transmitted == old(transmitted) + Exchange(renotify, begin, RenotifyPayload(startNotify), end)
    {
      if begin != Ok {
        return;
      }
      var buffer := BeginWrite(renotify);
      buffer[0] := if startNotify then 1 else 0;
      assert buffer[..1] == RenotifyPayload(startNotify);
      EndWrite(renotify, buffer, 1, false, end);
    }

    /** The focus handler: gaining focus starts the notification, losing it
        ends it. */
    method FocusChanged(inFocus: bool, begin: SmartstrapResult, end: SmartstrapResult)
      requires Valid()
      modifies this`transmitted
      ensures Valid()
      ensures transmitted == old(transmitted) + Exchange(renotify, begin, RenotifyPayload(inFocus), end)
    {
      if inFocus {
        ReNotify(true, begin, end);
      } else {
        ReNotify(false, begin, end);
      }
    }

    /** The notification handler; hour and minute are what the clock reads
        when the say-time write samples it. */
    method Notified(attr: Attribute, hour: int, minute: int,
                    begin: SmartstrapResult, end: SmartstrapResult)
      requires Valid()
      modifies this`transmitted, this`readRequests
      ensures Valid()
      ensures Route(attr) == AnnounceTime ==>
                transmitted == old(transmitted) + Exchange(sayTime, begin, SayTimePayload(hour, minute), end)
                && readRequests == old(readRequests)
      ensures Route(attr) == ReadUptime ==>
                transmitted == old(transmitted) && readRequests == old(readRequests) + [uptime]
      ensures Route(attr) == Ignore ==>
                transmitted == old(transmitted) && readRequests == old(readRequests)
    {
      if attr == ultrasound {
        SayTime(hour, minute, begin, end);
      }
      if attr == uptime {
        readRequests := readRequests + [uptime];
      }
    }
  }
}
