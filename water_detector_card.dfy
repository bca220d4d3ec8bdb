/** The water detector card: each status maps to a label key and a colour,
    `Active` giving the alarm pair and every other value the normal pair. */
module WaterDetectorCard {
  import opened Js
  import WaterMeterHook

  datatype Colour = Red | Green

  /** `status === DefaultDeviceState.Active`. */
  predicate IsActive(status: Nullable<string>) {
    status == Value(WaterMeterHook.Active)
  }

  const ValveClosed := "waterDetector:valveStatus:closed"
  const ValveOpen := "waterDetector:valveStatus:open"
  const Leak := "waterDetector:detectorStatus:leak"
  const NoLeak := "waterDetector:detectorStatus:noLeak"

  /** The label key a status selects: `activeKey` for `Active`, `otherKey`
      for every other value. The valve and the detector each use it with
      their own pair. */
  function StatusLabel(status: Nullable<string>, activeKey: string, otherKey: string): (r: string)
    requires activeKey != otherKey
    ensures r == activeKey <==> IsActive(status)
    ensures r == otherKey <==> !IsActive(status)
  {
    if IsActive(status) then activeKey else otherKey
  }

  /** The colour a status selects, the same rule for the valve and the detector. */
  function StatusColour(status: Nullable<string>): (r: Colour)
    ensures r == Red <==> IsActive(status)
  {
    if IsActive(status) then Red else Green
  }

  /** What the card renders: valve label and colour, detector label and colour. */
  datatype CardView = CardView(valveLabel: string, valveColour: Colour, detectorLabel: string, detectorColour: Colour)

  /** Each half of the card shows the alarm pair exactly when its own status is `Active`. */
  function Render(d: WaterMeterHook.WaterData): (r: CardView)
    ensures r.valveLabel == ValveClosed <==> IsActive(d.valveStatus)
    ensures r.valveLabel == ValveOpen <==> !IsActive(d.valveStatus)
    ensures r.valveColour == Red <==> IsActive(d.valveStatus)
    ensures r.detectorLabel == Leak <==> IsActive(d.detectorStatus)
    ensures r.detectorLabel == NoLeak <==> !IsActive(d.detectorStatus)
    ensures r.detectorColour == Red <==> IsActive(d.detectorStatus)
  {
    CardView(StatusLabel(d.valveStatus, ValveClosed, ValveOpen), StatusColour(d.valveStatus),
             StatusLabel(d.detectorStatus, Leak, NoLeak), StatusColour(d.detectorStatus))
  }

  /** Label and colour never disagree: closed with red, open with green, and
      likewise leak with red, no leak with green. */
  lemma LabelsAgreeWithColours(d: WaterMeterHook.WaterData)
    ensures Render(d).valveLabel == ValveClosed <==> Render(d).valveColour == Red
    ensures Render(d).valveLabel == ValveOpen <==> Render(d).valveColour == Green
    ensures Render(d).detectorLabel == Leak <==> Render(d).detectorColour == Red
    ensures Render(d).detectorLabel == NoLeak <==> Render(d).detectorColour == Green
  {
  }

  /** Each half of the card depends only on its own status field. */
  lemma HalvesIndependent(d: WaterMeterHook.WaterData, other: Nullable<string>)
    ensures Render(d.(detectorStatus := other)).valveLabel == Render(d).valveLabel
    ensures Render(d.(detectorStatus := other)).valveColour == Render(d).valveColour
    ensures Render(d.(valveStatus := other)).detectorLabel == Render(d).detectorLabel
    ensures Render(d.(valveStatus := other)).detectorColour == Render(d).detectorColour
  {
  }

  /** Before any fetch, and for `Inactive` or any unexpected value, the card
      shows an open valve and no leak. */
  lemma InactiveOrUnknownIsNormal(d: WaterMeterHook.WaterData)
    requires d.valveStatus != Value(WaterMeterHook.Active) && d.detectorStatus != Value(WaterMeterHook.Active)
    ensures Render(d) == CardView(ValveOpen, Green, NoLeak, Green)
  {
  }
}
