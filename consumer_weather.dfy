/** The consumer side's weather model: the latest temperature and status, updated from
    incoming messages. */
module WeatherConsumer {
  import opened Wrappers

  const DefaultTemperature: real := 70.0
  const DefaultStatus: string := "sunny"

  /** The decoded value of a message: each key may be missing. */
  datatype WeatherInfo = WeatherInfo(temperature: Option<real>, status: Option<string>)

  datatype Message = Message(topic: string, value: WeatherInfo)

  /** `sub` occurs in `s` starting at position `i`. */
  predicate OccursAt(s: string, sub: string, i: int) {
    0 <= i && i + |sub| <= |s| && s[i..i + |sub|] == sub
  }

  /** Occurrences in `s` from position 1 on are the occurrences in `s[1..]`, shifted. */
  lemma ShiftOccurrences(s: string, sub: string)
    requires |s| >= 1
    ensures forall j :: 0 <= j && OccursAt(s[1..], sub, j) ==> OccursAt(s, sub, j + 1)
    ensures forall i :: 1 <= i && OccursAt(s, sub, i) ==> OccursAt(s[1..], sub, i - 1)
  {
  }

  /** Python's `sub in s` on strings: `sub` occurs in `s` at some position. */
  function Contains(s: string, sub: string): (r: bool)
    ensures r <==> exists i :: OccursAt(s, sub, i)
    decreases |s|
  {
    if |s| < |sub| then false
    else if s[..|sub|] == sub then
      assert OccursAt(s, sub, 0);
      true
    else
      ShiftOccurrences(s, sub);
      assert !OccursAt(s, sub, 0);
      Contains(s[1..], sub)
  }

  /** The topics whose messages update the model: every name with "arrivals" in it. */
  predicate Handles(topic: string): (r: bool)
    ensures r <==> exists i :: OccursAt(topic, "arrivals", i)
    ensures r ==> |topic| >= 8
  {
    Contains(topic, "arrivals")
  }

  /** The topic the weather producer posts its readings to. */
  const WeatherTopic: string := "weather"

  /** Messages of the weather topic itself do not update the model. */
  lemma WeatherTopicNotHandled()
    ensures !Handles(WeatherTopic)
  {
  }

  class Weather {
    var temperature: real
    var status: string

    constructor ()
      ensures temperature == DefaultTemperature && status == DefaultStatus
    {
      temperature := DefaultTemperature;
      status := DefaultStatus;
    }

    /** A message on a handled topic overwrites both fields, each with the message's
        value or, when the key is missing, the default, never the previous value; any
        other message changes nothing. */
    method ProcessMessage(message: Message)
      modifies this
      ensures Handles(message.topic) ==>
        temperature == message.value.temperature.GetOr(DefaultTemperature) &&
        status == message.value.status.GetOr(DefaultStatus)
      ensures !Handles(message.topic) ==>
        temperature == old(temperature) && status == old(status)
    {
      if Contains(message.topic, "arrivals") {
        var info := message.value;
        temperature := info.temperature.GetOr(DefaultTemperature);
        status := info.status.GetOr(DefaultStatus);
      }
    }
  }

  /** Any topic name with "arrivals" somewhere in it is handled, not only "arrivals". */
  lemma HandlesAnyContainingName(prefix: string, suffix: string)
    ensures Handles(prefix + "arrivals" + suffix)
  {
    var s := prefix + "arrivals" + suffix;
    assert s[|prefix|..|prefix| + 8] == "arrivals";
    assert OccursAt(s, "arrivals", |prefix|);
  }
}
