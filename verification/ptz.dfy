/** Construction of the PTZ requests the bridge sends to the camera: RelativeMove
    (section 5.3.2 of the ONVIF PTZ Service Specification), GotoPreset, SetPreset
    and GotoHomePosition. Only the request bodies are modelled; the SOAP call that
    carries them is outside the model. */
module Ptz {

  /** Go's `int8`. */
  type Int8 = x: int | -128 <= x < 128

  const PanTiltTranslationSpace := "http://www.onvif.org/ver10/tptz/PanTiltSpaces/TranslationGenericSpace"
  const ZoomTranslationSpace := "http://www.onvif.org/ver10/tptz/ZoomSpaces/TranslationGenericSpace"
  const PanTiltSpeedSpace := "http://www.onvif.org/ver10/tptz/PanTiltSpaces/GenericSpeedSpace"
  const ZoomSpeedSpace := "http://www.onvif.org/ver10/tptz/ZoomSpaces/ZoomGenericSpeedSpace"

  /** Every request moves at half of the generic speed range, on every axis. */
  const FixedSpeed: real := 0.5

  /** A relative move travels half of the requested angle fraction. */
  const DisplacementFactor: real := 0.5

  datatype Vector2D = Vector2D(x: real, y: real, space: string)
  datatype Vector1D = Vector1D(x: real, space: string)
  datatype PtzVector = PtzVector(panTilt: Vector2D, zoom: Vector1D)

  datatype RelativeMoveRequest = RelativeMoveRequest(profileToken: string, translation: PtzVector, speed: PtzVector)
  datatype GotoPresetRequest = GotoPresetRequest(profileToken: string, presetToken: string, speed: PtzVector)
  datatype GotoHomeRequest = GotoHomeRequest(profileToken: string, speed: PtzVector)
  datatype SetPresetRequest = SetPresetRequest(profileToken: string, presetName: string, presetToken: string)

  function Abs(x: real): real {
    if x < 0.0 then -x else x
  }

  /** The speed vector shared by RelativeMove, GotoPreset and GotoHomePosition. */
  function Speed(): PtzVector {
    PtzVector(Vector2D(FixedSpeed, FixedSpeed, PanTiltSpeedSpace), Vector1D(FixedSpeed, ZoomSpeedSpace))
  }

  /** One axis of the translation: a Go `switch` with cases -1, 0 and 1 and no
      default, so any other selector leaves the axis at 0. */
  function Displacement(selector: Int8, displacement: real): real {
    if selector == -1 then -displacement
    else if selector == 1 then displacement
    else 0.0
  }

  /** The RelativeMove request for the given selectors and angle fraction. */
  function RelativeMove(upOrDown: Int8, leftOrRight: Int8, zoom: Int8, angle: real, token: string): (r: RelativeMoveRequest)
    ensures r.profileToken == token
    ensures leftOrRight == 1 ==> r.translation.panTilt.x == DisplacementFactor * angle
    ensures leftOrRight == -1 ==> r.translation.panTilt.x == -DisplacementFactor * angle
    ensures leftOrRight != 1 && leftOrRight != -1 ==> r.translation.panTilt.x == 0.0
    ensures upOrDown == 1 ==> r.translation.panTilt.y == DisplacementFactor * angle
    ensures upOrDown == -1 ==> r.translation.panTilt.y == -DisplacementFactor * angle
    ensures upOrDown != 1 && upOrDown != -1 ==> r.translation.panTilt.y == 0.0
    ensures zoom == 1 ==> r.translation.zoom.x == DisplacementFactor * angle
    ensures zoom == -1 ==> r.translation.zoom.x == -DisplacementFactor * angle
    ensures zoom != 1 && zoom != -1 ==> r.translation.zoom.x == 0.0
    ensures Abs(r.translation.panTilt.x) <= DisplacementFactor * Abs(angle)
    ensures Abs(r.translation.panTilt.y) <= DisplacementFactor * Abs(angle)
    ensures Abs(r.translation.zoom.x) <= DisplacementFactor * Abs(angle)
    ensures r.speed.panTilt.x == r.speed.panTilt.y == r.speed.zoom.x == FixedSpeed
    ensures r.translation.panTilt.space == PanTiltTranslationSpace
    ensures r.translation.zoom.space == ZoomTranslationSpace
  {
    var d := DisplacementFactor * angle;
    RelativeMoveRequest(
      token,
      PtzVector(
        Vector2D(Displacement(leftOrRight, d), Displacement(upOrDown, d), PanTiltTranslationSpace),
        Vector1D(Displacement(zoom, d), ZoomTranslationSpace)),
      Speed())
  }

  /** Negating every unit selector mirrors the move: each axis travels the same
      distance in the opposite direction, at the same speed. */
  lemma MirroredSelectorsMirrorMove(upOrDown: Int8, leftOrRight: Int8, zoom: Int8, angle: real, token: string)
    requires -1 <= upOrDown <= 1 && -1 <= leftOrRight <= 1 && -1 <= zoom <= 1
    ensures var a := RelativeMove(upOrDown, leftOrRight, zoom, angle, token);
            var b := RelativeMove(-upOrDown, -leftOrRight, -zoom, angle, token);
            && b.translation.panTilt.x == -a.translation.panTilt.x
            && b.translation.panTilt.y == -a.translation.panTilt.y
            && b.translation.zoom.x == -a.translation.zoom.x
            && b.speed == a.speed
  {
  }

  /** The speed of a relative move does not depend on any argument. */
  lemma MoveSpeedIsFixed(u1: Int8, l1: Int8, z1: Int8, a1: real, t1: string,
                         u2: Int8, l2: Int8, z2: Int8, a2: real, t2: string)
    ensures RelativeMove(u1, l1, z1, a1, t1).speed == RelativeMove(u2, l2, z2, a2, t2).speed
  {
  }

  /** GotoPreset carries the profile and preset tokens through unchanged and moves at the fixed speed. */
  function GotoPreset(token: string, presetToken: string): (r: GotoPresetRequest)
    ensures r.profileToken == token && r.presetToken == presetToken
    ensures r.speed.panTilt.x == r.speed.panTilt.y == r.speed.zoom.x == FixedSpeed
    ensures r.speed == RelativeMove(0, 0, 0, 0.0, token).speed
  {
    GotoPresetRequest(token, presetToken, Speed())
  }

  /** GotoHomePosition carries the profile token through unchanged and moves at the fixed speed. */
  function GotoHome(token: string): (r: GotoHomeRequest)
    ensures r.profileToken == token
    ensures r.speed.panTilt.x == r.speed.panTilt.y == r.speed.zoom.x == FixedSpeed
    ensures r.speed == RelativeMove(0, 0, 0, 0.0, token).speed
  {
    GotoHomeRequest(token, Speed())
  }

  /** SetPreset carries its three tokens through unchanged. */
  function SetPreset(token: string, presetName: string, presetToken: string): (r: SetPresetRequest)
    ensures r.profileToken == token && r.presetName == presetName && r.presetToken == presetToken
  {
    SetPresetRequest(token, presetName, presetToken)
  }
}
