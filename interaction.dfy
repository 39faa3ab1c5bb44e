/** The page's controller: the global `state` (dimensions, skin toggle,
    camera angles, drag anchor, view preset), the values of the form controls,
    the cost ledger, and the event handlers that change them. Every handler
    that changes a control, the skin toggle, a unit cost or the camera ends in
    `updateAll`, which re-reads the form (the view preset included),
    re-applies the preset's camera angles, re-derives the bill and refreshes
    the ledger. Because a drag or an arrow key writes "iso" into the view
    control before calling `updateAll`, the angles they just changed are
    immediately replaced by the iso angles. */
module Interaction {
  import opened Numeric
  import opened Quantities
  import opened Ledger

  const IsoYaw: real := -0.85
  const IsoPitch: real := -0.25
  /** `Math.PI / 2`, written as the shortest decimal of the double it evaluates to. */
  const HalfPi: real := 1.5707963267948966

  /** The range a manual orbit keeps the camera pitch in. */
  const MinPitch: real := -1.35
  const MaxPitch: real := 0.35

  const YawPerPixel: real := 0.0075
  const PitchPerPixel: real := 0.006
  const YawStep: real := 0.10
  const PitchStep: real := 0.08

  /** The `(yaw, pitch)` that `applyViewPreset` writes for a view value: the
      three named presets, and the iso angles for anything else. */
  function PresetAngles(view: string): (r: (real, real))
    ensures view == "front" ==> r == (0.0, -0.1)
    ensures view == "side" ==> r == (HalfPi, -0.1)
    ensures view == "top" ==> r == (0.9, -1.25)
    ensures view !in {"front", "side", "top"} ==> r == (IsoYaw, IsoPitch)
    ensures MinPitch <= r.1 <= MaxPitch
  {
    if view == "front" then (0.0, -0.1)
    else if view == "side" then (HalfPi, -0.1)
    else if view == "top" then (0.9, -1.25)
    else (IsoYaw, IsoPitch)
  }

  /** The pitch after a manual orbit by `delta`, clamped to the safe range. */
  function OrbitPitch(pitch: real, delta: real): (r: real)
    ensures MinPitch <= r <= MaxPitch
    ensures MinPitch <= pitch + delta <= MaxPitch ==> r == pitch + delta
  {
    Clamp(pitch + delta, MinPitch, MaxPitch)
  }

  /** The form controls' current values (`ui.len.value`, ..., `ui.view.value`). */
  datatype Form = Form(len: real, wid: real, hgt: real, pit: real, windows: real, view: string)

  function FormDimensions(f: Form): Dimensions
  {
    Dimensions(f.len, f.wid, f.hgt, f.pit, f.windows)
  }

  /** The page's `defaults`. */
  const DefaultDimensions: Dimensions := Dimensions(16.0, 12.0, 8.0, 6.0, 2.0)

  class Controller {
    var dims: Dimensions
    var showSkin: bool
    var yaw: real
    var pitch: real
    var drag: bool
    var lastX: real
    var lastY: real
    var viewPreset: string
    var form: Form
    /** The grand total last written to the page. */
    var grandTotal: real
    const ledger: CostLedger

    ghost predicate Valid()
      reads this, ledger, ledger.rows
    {
      ledger.Valid()
    }

    /** The page's start-up: the initial state, `syncUIFromState()` and a
        first `updateAll()`; `rafterLen` is the square root the bill needs
        for the default dimensions. */
    constructor (rafterLen: real)
      ensures Valid() && fresh(ledger) && fresh(ledger.rows)
      ensures dims == DefaultDimensions && showSkin && !drag && lastX == 0.0 && lastY == 0.0
      ensures form == Form(16.0, 12.0, 8.0, 6.0, 2.0, "iso") && viewPreset == "iso"
      ensures (yaw, pitch) == (IsoYaw, IsoPitch)
      ensures ledger.rows[..] == ApplyBill(InitialRows(), DeriveBill(DefaultDimensions, rafterLen))
      ensures grandTotal == Total(ledger.rows[..])
    {
      dims := DefaultDimensions;
      showSkin := true;
      yaw, pitch := IsoYaw, IsoPitch;
      drag := false;
      lastX, lastY := 0.0, 0.0;
      viewPreset := "iso";
      form := Form(0.0, 0.0, 0.0, 0.0, 0.0, "");
      grandTotal := 0.0;
      ledger := new CostLedger();
      new;
      SyncUIFromState();
      var _ := UpdateAll(rafterLen);
    }

    /** `syncUIFromState()`: the controls show the state. */
    method SyncUIFromState()
      modifies this`form
      ensures form == Form(dims.lengthFt, dims.widthFt, dims.wallFt, dims.pitchRisePer12, dims.windows, viewPreset)
    {
      form := Form(dims.lengthFt, dims.widthFt, dims.wallFt, dims.pitchRisePer12, dims.windows, viewPreset);
    }

    /** `readStateFromUI()`: the state takes the controls' values, the view
        preset included. */
    method ReadStateFromUI()
      modifies this`dims, this`viewPreset
      ensures dims == FormDimensions(form) && viewPreset == form.view
    {
      dims := FormDimensions(form);
      viewPreset := form.view;
    }

    /** `applyViewPreset()`: an absolute overwrite of both angles that depends
        on the preset alone. */
    method ApplyViewPreset()
      modifies this`yaw, this`pitch
      ensures (yaw, pitch) == PresetAngles(viewPreset)
    {
      var v := viewPreset;
      if v == "front" {
        yaw := 0.0;
        pitch := -0.1;
      } else if v == "side" {
        yaw := HalfPi;
        pitch := -0.1;
      } else if v == "top" {
        yaw := 0.9;
        pitch := -1.25;
      } else {
        yaw := IsoYaw;
        pitch := IsoPitch;
      }
    }

    /** `updateAll()` up to the redraw: the camera afterwards is a function of
        the view control alone, and the ledger holds the quantities of the
        bill for the controls' dimensions. `rafterLen` is the square root the
        bill needs for those dimensions. */
    method UpdateAll(rafterLen: real) returns (bill: Bill)
      requires Valid()
      modifies this`dims, this`viewPreset, this`yaw, this`pitch, this`grandTotal, ledger.rows
      ensures Valid()
      ensures dims == FormDimensions(form) && viewPreset == form.view
      ensures (yaw, pitch) == PresetAngles(form.view)
      ensures bill == DeriveBill(FormDimensions(form), rafterLen)
      ensures ledger.rows[..] == ApplyBill(old(ledger.rows[..]), bill)
      ensures grandTotal == Total(ledger.rows[..])
    {
      ReadStateFromUI();
      ApplyViewPreset();
      bill := DeriveBill(dims, rafterLen);
      ledger.UpdateCostQuantities(bill);
      grandTotal := ledger.ComputeGrandTotal();
    }

    /** A form control's input or change event: the controls now hold `f`. */
    method ControlsChanged(f: Form, rafterLen: real)
      requires Valid()
      modifies this, ledger.rows
      ensures Valid()
      ensures form == f && dims == FormDimensions(f) && viewPreset == f.view
      ensures (yaw, pitch) == PresetAngles(f.view)
      ensures ledger.rows[..] == ApplyBill(old(ledger.rows[..]), DeriveBill(FormDimensions(f), rafterLen))
      ensures grandTotal == Total(ledger.rows[..])
      ensures showSkin == old(showSkin) && drag == old(drag) && lastX == old(lastX) && lastY == old(lastY)
    {
      form := f;
      var _ := UpdateAll(rafterLen);
    }

    /** The first half of the reset button: `Object.assign(state, defaults)`,
        the iso preset, and `syncUIFromState()`. */
    method RestoreDefaults()
      modifies this`dims, this`showSkin, this`viewPreset, this`form
      ensures dims == DefaultDimensions && showSkin && viewPreset == "iso"
      ensures form == Form(16.0, 12.0, 8.0, 6.0, 2.0, "iso")
    {
      dims := DefaultDimensions;
      showSkin := true;
      viewPreset := "iso";
      SyncUIFromState();
    }

    /** The reset button: dimensions and skin toggle back to the defaults,
        the iso preset, unit costs kept. */
    method Reset(rafterLen: real)
      requires Valid()
      modifies this, ledger.rows
      ensures Valid()
      ensures dims == DefaultDimensions && showSkin && viewPreset == "iso"
      ensures form == Form(16.0, 12.0, 8.0, 6.0, 2.0, "iso")
      ensures (yaw, pitch) == (IsoYaw, IsoPitch)
      ensures ledger.rows[..] == ApplyBill(old(ledger.rows[..]), DeriveBill(DefaultDimensions, rafterLen))
      ensures grandTotal == Total(ledger.rows[..])
      ensures drag == old(drag) && lastX == old(lastX) && lastY == old(lastY)
    {
      RestoreDefaults();
      var _ := UpdateAll(rafterLen);
    }

    /** The skin toggle button. */
    method ToggleSkin(rafterLen: real)
      requires Valid()
      modifies this, ledger.rows
      ensures Valid()
      ensures showSkin == !old(showSkin) && form == old(form)
      ensures dims == FormDimensions(form) && viewPreset == form.view
      ensures (yaw, pitch) == PresetAngles(form.view)
      ensures ledger.rows[..] == ApplyBill(old(ledger.rows[..]), DeriveBill(FormDimensions(form), rafterLen))
      ensures grandTotal == Total(ledger.rows[..])
      ensures drag == old(drag) && lastX == old(lastX) && lastY == old(lastY)
    {
      showSkin := !showSkin;
      var _ := UpdateAll(rafterLen);
    }

    /** A unit-cost input of the cost table: row `i` takes the new unit cost,
        then everything is recomputed. */
    method UnitCostEdited(i: nat, c: Option<real>, rafterLen: real)
      requires Valid() && i < ledger.rows.Length
      modifies this, ledger.rows
      ensures Valid()
      ensures ledger.rows[..] ==
        ApplyBill(old(ledger.rows[..])[i := old(ledger.rows[i]).(unitCost := c)],
                  DeriveBill(FormDimensions(form), rafterLen))
      ensures grandTotal == Total(ledger.rows[..])
      ensures form == old(form) && (yaw, pitch) == PresetAngles(form.view)
      ensures dims == FormDimensions(form) && viewPreset == form.view
      ensures showSkin == old(showSkin) && drag == old(drag) && lastX == old(lastX) && lastY == old(lastY)
    {
      ledger.SetUnitCost(i, c);
      var _ := UpdateAll(rafterLen);
    }

    /** `mousedown` on the canvas: start a drag anchored at the pointer. */
    method MouseDown(x: real, y: real)
      modifies this`drag, this`lastX, this`lastY
      ensures drag && lastX == x && lastY == y
    {
      drag := true;
      lastX := x;
      lastY := y;
    }

    /** `mouseup` anywhere: end the drag. */
    method MouseUp()
      modifies this`drag
      ensures !drag
    {
      drag := false;
    }

    /** The tail shared by the drag and key handlers: `state.viewPreset` and
        the view control both take `v`, then `updateAll` runs. */
    method ShowView(v: string, rafterLen: real)
      requires Valid()
      modifies this`viewPreset, this`form, this`dims, this`yaw, this`pitch, this`grandTotal, ledger.rows
      ensures Valid()
      ensures form == old(form).(view := v) && viewPreset == v
      ensures dims == FormDimensions(old(form))
      ensures (yaw, pitch) == PresetAngles(v)
      ensures ledger.rows[..] == ApplyBill(old(ledger.rows[..]), DeriveBill(FormDimensions(old(form)), rafterLen))
      ensures grandTotal == Total(ledger.rows[..])
      ensures drag == old(drag) && lastX == old(lastX) && lastY == old(lastY) && showSkin == old(showSkin)
    {
      viewPreset := v;
      form := form.(view := v);
      var _ := UpdateAll(rafterLen);
    }

    /** `mousemove` anywhere. Without a drag nothing changes. During a drag
        the anchor moves to the pointer, the angles are orbited and the pitch
        clamped, the view is set to "iso", and `updateAll` then re-applies the
        iso preset: the camera ends at the iso angles whatever the pointer did. */
    method MouseMove(x: real, y: real, rafterLen: real)
      requires Valid()
      modifies this, ledger.rows
      ensures Valid()
      ensures !old(drag) ==> unchanged(this) && ledger.rows[..] == old(ledger.rows[..])
      ensures old(drag) ==> drag && lastX == x && lastY == y
      ensures old(drag) ==> form == old(form).(view := "iso") && viewPreset == "iso"
      ensures old(drag) ==> dims == FormDimensions(old(form)) && showSkin == old(showSkin)
      ensures old(drag) ==> (yaw, pitch) == (IsoYaw, IsoPitch)
      ensures old(drag) ==>
        ledger.rows[..] == ApplyBill(old(ledger.rows[..]), DeriveBill(FormDimensions(old(form)), rafterLen))
      ensures old(drag) ==> grandTotal == Total(ledger.rows[..])
      ensures !old(drag) || MinPitch <= pitch <= MaxPitch
    {
      if !drag {
        return;
      }
      var dx := x - lastX;
      var dy := y - lastY;
      lastX := x;
      lastY := y;
      yaw := yaw + dx * YawPerPixel;
      pitch := OrbitPitch(pitch, dy * PitchPerPixel);
      ShowView("iso", rafterLen);
    }

    /** `keydown`: the arrow keys orbit by a fixed step (clamping the pitch)
        and set the view to "iso", which `updateAll` then re-applies; the keys
        1 to 4 select the front, side, top and iso presets; any other key does
        nothing. */
    method KeyDown(k: string, rafterLen: real)
      requires Valid()
      modifies this, ledger.rows
      ensures Valid()
      ensures k in {"ArrowLeft", "ArrowRight", "ArrowUp", "ArrowDown", "4"} ==>
        form == old(form).(view := "iso") && viewPreset == "iso" && (yaw, pitch) == (IsoYaw, IsoPitch)
      ensures k == "1" ==> form == old(form).(view := "front") && viewPreset == "front" && (yaw, pitch) == (0.0, -0.1)
      ensures k == "2" ==> form == old(form).(view := "side") && viewPreset == "side" && (yaw, pitch) == (HalfPi, -0.1)
      ensures k == "3" ==> form == old(form).(view := "top") && viewPreset == "top" && (yaw, pitch) == (0.9, -1.25)
      ensures k in {"ArrowLeft", "ArrowRight", "ArrowUp", "ArrowDown", "1", "2", "3", "4"} ==>
        dims == FormDimensions(old(form)) &&
        ledger.rows[..] == ApplyBill(old(ledger.rows[..]), DeriveBill(FormDimensions(old(form)), rafterLen)) &&
        grandTotal == Total(ledger.rows[..]) && MinPitch <= pitch <= MaxPitch
      ensures k !in {"ArrowLeft", "ArrowRight", "ArrowUp", "ArrowDown", "1", "2", "3", "4"} ==>
        unchanged(this) && ledger.rows[..] == old(ledger.rows[..])
      ensures drag == old(drag) && lastX == old(lastX) && lastY == old(lastY) && showSkin == old(showSkin)
    {
      if k == "ArrowLeft" {
        yaw := yaw - YawStep;
        ShowView("iso", rafterLen);
      }
      if k == "ArrowRight" {
        yaw := yaw + YawStep;
        ShowView("iso", rafterLen);
      }
      if k == "ArrowUp" {
        pitch := OrbitPitch(pitch, -PitchStep);
        ShowView("iso", rafterLen);
      }
      if k == "ArrowDown" {
        pitch := OrbitPitch(pitch, PitchStep);
        ShowView("iso", rafterLen);
      }
      if k == "1" {
        ShowView("front", rafterLen);
      }
      if k == "2" {
        ShowView("side", rafterLen);
      }
      if k == "3" {
        ShowView("top", rafterLen);
      }
      if k == "4" {
        ShowView("iso", rafterLen);
      }
    }
  }
}
