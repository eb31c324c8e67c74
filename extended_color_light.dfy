/**
  MatterExtendedColorLight: the air-quality indicator. Every setter is one or
  more attribute writes to the light's own endpoint.
 */
module ExtendedColorLight {
  import opened Matter
  import Indicator

  /** The write `SetLightOnOff(on)` makes. */
  function OnOffWrite(endpoint: EndpointId, on: bool): Write
  {
    Write(endpoint, OnOff, OnOffAttribute, BoolValue(on))
  }

  /** The write `SetLightLevelPercent(percent)` makes. */
  function LevelWrite(endpoint: EndpointId, percent: real): (w: Write)
    requires Indicator.IsPercent(percent)
    ensures w.cluster == LevelControl && w.attribute == CurrentLevel
    ensures w.value.UInt8Value? && 0x01 <= w.value.u <= 0xFE
  {
    Write(endpoint, LevelControl, CurrentLevel, UInt8Value(Indicator.LevelPercentToByte(percent)))
  }

  /** The writes `SetLightColorHSV(hue, saturation)` makes, in order. */
  function ColorWrites(endpoint: EndpointId, hue: UInt8, saturation: UInt8): seq<Write>
  {
    [Write(endpoint, ColorControl, CurrentHue, UInt8Value(hue)),
     Write(endpoint, ColorControl, CurrentSaturation, UInt8Value(saturation)),
     Write(endpoint, ColorControl, ColorMode, UInt8Value(CurrentHueAndCurrentSaturation))]
  }

  /** Every write the light makes is addressed to the given endpoint. */
  ghost predicate AllTo(ws: seq<Write>, endpoint: EndpointId)
  {
    forall i :: 0 <= i < |ws| ==> ws[i].endpoint == endpoint
  }

  class ExtendedColorLight {
    /** The id of the endpoint `CreateEndpoint` obtained. */
    const endpointId: EndpointId
    const sink: AttributeSink

    constructor (endpointId: EndpointId, sink: AttributeSink)
      ensures this.endpointId == endpointId && this.sink == sink
    {
      this.endpointId := endpointId;
      this.sink := sink;
    }

    method UpdateAttributeValueBool(cluster: ClusterId, attribute: nat, value: bool)
      modifies sink
      ensures sink.writes == old(sink.writes) + [Write(endpointId, cluster, attribute, BoolValue(value))]
    {
      sink.Update(Write(endpointId, cluster, attribute, BoolValue(value)));
    }

    method UpdateAttributeValueUInt8(cluster: ClusterId, attribute: nat, value: UInt8)
      modifies sink
      ensures sink.writes == old(sink.writes) + [Write(endpointId, cluster, attribute, UInt8Value(value))]
    {
      sink.Update(Write(endpointId, cluster, attribute, UInt8Value(value)));
    }

    method SetLightOnOff(on: bool)
      modifies sink
      ensures sink.writes == old(sink.writes) + [OnOffWrite(endpointId, on)]
    {
      UpdateAttributeValueBool(OnOff, OnOffAttribute, on);
    }

    method SetLightLevelPercent(levelPercent: real)
      requires Indicator.IsPercent(levelPercent)
      modifies sink
      ensures sink.writes == old(sink.writes) + [LevelWrite(endpointId, levelPercent)]
    {
      var level := Indicator.LevelPercentToByte(levelPercent);
      UpdateAttributeValueUInt8(LevelControl, CurrentLevel, level);
    }

    method SetLightColorHSV(hue: UInt8, saturation: UInt8)
      modifies sink
      ensures sink.writes == old(sink.writes) + ColorWrites(endpointId, hue, saturation)
    {
      UpdateAttributeValueUInt8(ColorControl, CurrentHue, hue);
      UpdateAttributeValueUInt8(ColorControl, CurrentSaturation, saturation);
      UpdateAttributeValueUInt8(ColorControl, ColorMode, CurrentHueAndCurrentSaturation);
    }
  }
}
