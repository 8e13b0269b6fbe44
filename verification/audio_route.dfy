/**
  The telemetry classification of the current audio route: the
  `telemetryAudioType` extension of the audio session. The route is the list
  of output ports the session currently plays through; the classification is
  a priority rule over that list.
 */
module AudioRoute {

  /** The port types an audio route can report. */
  datatype Port =
    | BluetoothA2DP | BluetoothHFP | BluetoothLE
    | Headphones | AirPlay | Hdmi | LineOut | CarAudio | UsbAudio
    | BuiltInSpeaker | BuiltInReceiver
    | Avb | DisplayPort | FireWire | Pci | Thunderbolt | Virtual
    | LineIn | BuiltInMic | HeadsetMic

  /** The audio category reported with every telemetry event. */
  datatype AudioType = Bluetooth | Headphones | Speaker | Unknown

  /** Ports that make the route count as Bluetooth. */
  const BluetoothPorts: seq<Port> := [Port.BluetoothA2DP, Port.BluetoothHFP, Port.BluetoothLE]

  /** Ports that make the route count as headphones (wired, AirPlay, HDMI, car, USB). */
  const HeadphonePorts: seq<Port> :=
    [Port.Headphones, Port.AirPlay, Port.Hdmi, Port.LineOut, Port.CarAudio, Port.UsbAudio]

  /** Ports that make the route count as the built-in speaker. */
  const SpeakerPorts: seq<Port> := [Port.BuiltInSpeaker, Port.BuiltInReceiver]

  /**
    `outputs.contains(where: { kinds.contains($0) })`: a scan of the outputs
    that stops at the first port whose type is one of `kinds`.
   */
  function ContainsWhere(outputs: seq<Port>, kinds: seq<Port>): (r: bool)
    ensures r <==> exists i :: 0 <= i < |outputs| && outputs[i] in kinds
  {
    if outputs == [] then false
    else if outputs[0] in kinds then true
    else
      var found := ContainsWhere(outputs[1..], kinds);
      assert forall i :: 1 <= i < |outputs| ==> outputs[i] == outputs[1..][i - 1];
      found
  }

  /** The classification, checking Bluetooth, then headphones, then speaker. */
  function TelemetryAudioType(outputs: seq<Port>): (r: AudioType)
    ensures forall i :: 0 <= i < |outputs| ==> Rank(Category(outputs[i])) <= Rank(r)
    ensures r == Unknown || exists i :: 0 <= i < |outputs| && Category(outputs[i]) == r
  {
    if ContainsWhere(outputs, BluetoothPorts) then Bluetooth
    else if ContainsWhere(outputs, HeadphonePorts) then AudioType.Headphones
    else if ContainsWhere(outputs, SpeakerPorts) then Speaker
    else Unknown
  }

  /**
    The category a single port would give the route on its own: a reference
    definition by cases on the port, independent of the three lists above.
   */
  function Category(p: Port): AudioType
  {
    match p
    case BluetoothA2DP | BluetoothHFP | BluetoothLE => Bluetooth
    case Headphones | AirPlay | Hdmi | LineOut | CarAudio | UsbAudio => AudioType.Headphones
    case BuiltInSpeaker | BuiltInReceiver => Speaker
    case _ => Unknown
  }

  /** The priority of a category: Bluetooth over headphones over speaker over unknown. */
  function Rank(t: AudioType): nat
  {
    match t
    case Bluetooth => 3
    case Headphones => 2
    case Speaker => 1
    case Unknown => 0
  }

  /** The higher-priority of two categories. */
  function Preferred(a: AudioType, b: AudioType): AudioType
  {
    if Rank(a) >= Rank(b) then a else b
  }

  lemma RankInjective(a: AudioType, b: AudioType)
    ensures Rank(a) == Rank(b) ==> a == b
  {
  }

  /** Any Bluetooth output makes the route Bluetooth, whatever else is present. */
  lemma BluetoothWins(outputs: seq<Port>)
    ensures TelemetryAudioType(outputs) == Bluetooth
        <==> exists i :: 0 <= i < |outputs| && outputs[i] in BluetoothPorts
  {
  }

  /** Headphones exactly when no output is Bluetooth and some output is headphone-class. */
  lemma HeadphonesWhenNoBluetooth(outputs: seq<Port>)
    ensures TelemetryAudioType(outputs) == AudioType.Headphones
        <==> (forall i :: 0 <= i < |outputs| ==> outputs[i] !in BluetoothPorts)
             && (exists i :: 0 <= i < |outputs| && outputs[i] in HeadphonePorts)
  {
  }

  /**
    Speaker exactly when no output is Bluetooth or headphone-class and some
    output is the built-in speaker or receiver.
   */
  lemma SpeakerWhenNothingBetter(outputs: seq<Port>)
    ensures TelemetryAudioType(outputs) == Speaker
        <==> (forall i :: 0 <= i < |outputs| ==>
                outputs[i] !in BluetoothPorts && outputs[i] !in HeadphonePorts)
             && (exists i :: 0 <= i < |outputs| && outputs[i] in SpeakerPorts)
  {
  }

  /** Unknown exactly when no output matches any of the three lists; in particular for no outputs. */
  lemma UnknownWhenUnmatched(outputs: seq<Port>)
    ensures TelemetryAudioType(outputs) == Unknown
        <==> forall i :: 0 <= i < |outputs| ==>
               outputs[i] !in BluetoothPorts && outputs[i] !in HeadphonePorts
               && outputs[i] !in SpeakerPorts
    ensures TelemetryAudioType([]) == Unknown
  {
  }

  /**
    Joining two routes gives the preferred of their categories: outputs never
    combine into a new category, and adding outputs never lowers the priority.
   */
  lemma {:induction false} RouteOfJoin(a: seq<Port>, b: seq<Port>)
    ensures TelemetryAudioType(a + b) == Preferred(TelemetryAudioType(a), TelemetryAudioType(b))
  {
    var ta, tb, tab := TelemetryAudioType(a), TelemetryAudioType(b), TelemetryAudioType(a + b);
    var best := Preferred(ta, tb);
    forall i | 0 <= i < |a + b|
      ensures Rank(Category((a + b)[i])) <= Rank(best)
    {
      if i < |a| {
        assert (a + b)[i] == a[i];
      } else {
        assert (a + b)[i] == b[i - |a|];
      }
    }
    if best != Unknown {
      if best == ta {
        var i :| 0 <= i < |a| && Category(a[i]) == ta;
        assert (a + b)[i] == a[i];
      } else {
        var i :| 0 <= i < |b| && Category(b[i]) == tb;
        assert (a + b)[|a| + i] == b[i];
      }
    }
    RankInjective(tab, best);
  }

  /** A Bluetooth output keeps the route Bluetooth whatever outputs come before or after it. */
  lemma BluetoothAmongOthers(outputs: seq<Port>, others: seq<Port>)
    requires exists i :: 0 <= i < |outputs| && outputs[i] in BluetoothPorts
    ensures TelemetryAudioType(outputs + others) == Bluetooth
    ensures TelemetryAudioType(others + outputs) == Bluetooth
  {
    RouteOfJoin(outputs, others);
    RouteOfJoin(others, outputs);
  }

  /** The category depends only on which ports are present, not on their order. */
  lemma OutputOrderIrrelevant(a: seq<Port>, b: seq<Port>)
    requires multiset(a) == multiset(b)
    ensures TelemetryAudioType(a) == TelemetryAudioType(b)
  {
    RankBelow(a, b);
    RankBelow(b, a);
    RankInjective(TelemetryAudioType(a), TelemetryAudioType(b));
  }

  /** Every port of `a` also occurs in `b`, so `b` ranks at least as high. */
  lemma RankBelow(a: seq<Port>, b: seq<Port>)
    requires multiset(a) <= multiset(b)
    ensures Rank(TelemetryAudioType(a)) <= Rank(TelemetryAudioType(b))
  {
    var ta := TelemetryAudioType(a);
    if ta != Unknown {
      var i :| 0 <= i < |a| && Category(a[i]) == ta;
      assert a[i] in multiset(a);
      assert a[i] in multiset(b);
      var j :| 0 <= j < |b| && b[j] == a[i];
    }
  }
}
