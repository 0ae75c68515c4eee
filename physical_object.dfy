/*
 * A drawable, labelable physical object with a mass (PhysicalObject in
 * util/object/PhysicalObject.py) together with its one concrete kind, the
 * sphere (util/object/Sphere.py), whose `create` supplies the drawing.
 *
 * The drawing library is not modelled: a drawn object is represented by the
 * position its backend shows, a drawn label by the position and text it
 * shows.  Keyword arguments forwarded to the backend are not modelled; every
 * operation here is the call without them.
 */
module PhysicalObjects {
  import opened Wrappers
  import opened Vectors

  /** What the label backend shows: where, and which text. */
  datatype LabelHandle = LabelHandle(pos: Vec3, text: string)

  /** The runtime errors the object raises, one per guard. */
  datatype ObjectError =
    | PositionNotSet      // draw without a position
    | AlreadyDrawn        // draw a second time
    | ObjectNotTickable   // tick the object before it is drawn, or without a position
    | LabelWithoutObject  // draw the label before the object
    | EmptyLabel          // draw a label whose text is unset or empty
    | LabelAlreadyDrawn   // draw the label a second time
    | LabelNotTickable    // tick the label before it (or the object) is drawn
    | NoPosition          // the stored position is None where a vector is needed

  /** The label text is set and not empty. */
  predicate NonEmptyLabel(text: Option<string>) {
    text.Some? && text.value != ""
  }

  /** A position moved by an optional offset. */
  function Shifted(pos: Vec3, offset: Option<Vec3>): Vec3 {
    if offset.None? then pos else Plus(pos, offset.value)
  }

  class Sphere {
    var mass: real
    var position: Vector?
    var labelText: Option<string>
    var labelRelativePosition: Vector?
    var objectBackend: Option<Vec3>
    var labelBackend: Option<LabelHandle>

    /** A label is only ever drawn for an object that is drawn. */
    predicate Valid()
      reads this
    {
      labelBackend.Some? ==> objectBackend.Some?
    }

    /** The current label offset, if one is set. */
    function Offset(): Option<Vec3>
      reads this, labelRelativePosition
    {
      if labelRelativePosition == null then None else Some(labelRelativePosition.Value())
    }

    /** A new object: nothing drawn, no label text, no label offset. */
    constructor (mass: real := 1.0, position: Vector? := null)
      ensures this.mass == mass && this.position == position
      ensures labelText == None && labelRelativePosition == null
      ensures objectBackend == None && labelBackend == None
      ensures Valid()
    {
      this.mass := mass;
      this.position := position;
      labelText := None;
      labelRelativePosition := null;
      objectBackend := None;
      labelBackend := None;
    }

    method SetPosition(position: Vector?)
      modifies this`position
      ensures this.position == position
    {
      this.position := position;
    }

    method SetLabelText(text: string)
      modifies this`labelText
      ensures labelText == Some(text)
    {
      labelText := Some(text);
    }

    method SetLabelRelativePosition(offset: Vector?)
      modifies this`labelRelativePosition
      ensures labelRelativePosition == offset
    {
      labelRelativePosition := offset;
    }

    /**
     * The sphere's backend creation: it shows the sphere at the stored
     * position and ignores its own `at` argument.  A missing position fails
     * when its components are read.
     */
    method Create(at: Vec3) returns (r: Outcome<ObjectError>)
      modifies this`objectBackend
      ensures r.Ok? <==> position != null
      ensures r.Fail? ==> r.error == NoPosition && unchanged(this)
      ensures r.Ok? ==> objectBackend == Some(position.Value())
      ensures old(Valid()) ==> Valid()
    {
      if position == null {
        return Fail(NoPosition);
      }
      objectBackend := Some(position.Value());
      r := Ok;
    }

    /** Draws the object once, at its stored position. */
    method Draw(at: Vec3) returns (r: Outcome<ObjectError>)
      modifies this`objectBackend
      ensures old(position) == null ==> r == Fail(PositionNotSet)
      ensures old(position) != null && old(objectBackend).Some? ==> r == Fail(AlreadyDrawn)
      ensures r.Ok? <==> old(position) != null && old(objectBackend).None?
      ensures r.Fail? ==> unchanged(this)
      ensures r.Ok? ==> objectBackend == Some(position.Value())
      ensures old(Valid()) ==> Valid()
    {
      if position == null {
        return Fail(PositionNotSet);
      }
      if objectBackend.Some? {
        return Fail(AlreadyDrawn);
      }
      r := Create(at);
    }

    /** Moves the drawn object to the stored position. */
    method TickObject() returns (r: Outcome<ObjectError>)
      modifies this`objectBackend
      ensures r.Ok? <==> position != null && old(objectBackend).Some?
      ensures r.Fail? ==> r.error == ObjectNotTickable && unchanged(this)
      ensures r.Ok? ==> objectBackend == Some(position.Value())
      ensures old(Valid()) ==> Valid()
    {
      if position == null || objectBackend.None? {
        return Fail(ObjectNotTickable);
      }
      objectBackend := Some(position.Value());
      r := Ok;
    }

    /**
     * Draws the label once, at the stored position moved by the label
     * offset.  As written, the offset is added into the stored position
     * vector itself, so the object's position moves by the offset too.
     */
    method DrawLabel() returns (r: Outcome<ObjectError>)
      modifies this`labelBackend, position
      ensures old(objectBackend).None? ==> r == Fail(LabelWithoutObject)
      ensures old(objectBackend).Some? && !NonEmptyLabel(labelText) ==> r == Fail(EmptyLabel)
      ensures old(objectBackend).Some? && NonEmptyLabel(labelText) && old(labelBackend).Some? ==>
                r == Fail(LabelAlreadyDrawn)
      ensures old(objectBackend).Some? && NonEmptyLabel(labelText) && old(labelBackend).None? && position == null ==>
                r == Fail(NoPosition)
      ensures r.Ok? <==> objectBackend.Some? && NonEmptyLabel(labelText) && old(labelBackend).None? && position != null
      ensures r.Fail? ==> unchanged(this) && (position != null ==> unchanged(position))
      ensures r.Ok? ==>
                && position.Value() == Shifted(old(position.Value()), old(Offset()))
                && labelBackend == Some(LabelHandle(position.Value(), labelText.value))
      ensures old(Valid()) ==> Valid()
    {
      if objectBackend.None? {
        return Fail(LabelWithoutObject);
      }
      if !NonEmptyLabel(labelText) {
        return Fail(EmptyLabel);
      }
      if labelBackend.Some? {
        return Fail(LabelAlreadyDrawn);
      }
      var pos := position;
      if pos == null {
        return Fail(NoPosition);
      }
      if labelRelativePosition != null {
        pos := pos.Add(labelRelativePosition);
      }
      labelBackend := Some(LabelHandle(pos.Value(), labelText.value));
      r := Ok;
    }

    /**
     * Moves the drawn label to the stored position moved by the label
     * offset; as in DrawLabel, the offset is added into the stored position.
     */
    method TickLabel() returns (r: Outcome<ObjectError>)
      modifies this`labelBackend, position
      ensures r.Ok? <==> position != null && objectBackend.Some? && old(labelBackend).Some?
      ensures old(Valid()) ==> (r.Ok? <==> position != null && old(labelBackend).Some?)
      ensures r.Fail? ==> r.error == LabelNotTickable && unchanged(this) && (position != null ==> unchanged(position))
      ensures r.Ok? ==>
                && position.Value() == Shifted(old(position.Value()), old(Offset()))
                && labelBackend == Some(old(labelBackend.value).(pos := position.Value()))
      ensures old(Valid()) ==> Valid()
    {
      if position == null || objectBackend.None? || labelBackend.None? {
        return Fail(LabelNotTickable);
      }
      var pos := position;
      if labelRelativePosition != null {
        pos := pos.Add(labelRelativePosition);
      }
      labelBackend := Some(labelBackend.value.(pos := pos.Value()));
      r := Ok;
    }

    /**
     * Stores the new position, then moves the object and then the label.
     * The position is stored before any check, so a failing tick has
     * already replaced it; a failure to tick the label comes after the
     * object has moved.
     */
    method Tick(p: Vector?) returns (r: Outcome<ObjectError>)
      modifies this`position, this`objectBackend, this`labelBackend, p
      ensures position == p
      ensures r.Ok? <==> p != null && old(objectBackend).Some? && old(labelBackend).Some?
      ensures (p == null || old(objectBackend).None?) ==>
                && r == Fail(ObjectNotTickable) && objectBackend == old(objectBackend) && labelBackend == old(labelBackend)
                && (p != null ==> unchanged(p))
      ensures p != null && old(objectBackend).Some? ==> objectBackend == Some(old(p.Value()))
      ensures p != null && old(objectBackend).Some? && old(labelBackend).None? ==>
                r == Fail(LabelNotTickable) && labelBackend == None && unchanged(p)
      ensures r.Ok? ==>
                && p.Value() == Shifted(old(p.Value()), old(Offset()))
                && labelBackend == Some(old(labelBackend.value).(pos := p.Value()))
      ensures old(Valid()) ==> Valid()
    {
      position := p;
      r := TickObject();
      if r.Fail? {
        return;
      }
      r := TickLabel();
    }

    /**
     * DrawLabel as evidently intended: the label is placed at the shifted
     * position, computed on a copy, and the object's position stays put.
     */
    method DrawLabelCorrected() returns (r: Outcome<ObjectError>)
      modifies this`labelBackend
      ensures old(objectBackend).None? ==> r == Fail(LabelWithoutObject)
      ensures old(objectBackend).Some? && !NonEmptyLabel(labelText) ==> r == Fail(EmptyLabel)
      ensures old(objectBackend).Some? && NonEmptyLabel(labelText) && old(labelBackend).Some? ==>
                r == Fail(LabelAlreadyDrawn)
      ensures r.Ok? <==> objectBackend.Some? && NonEmptyLabel(labelText) && old(labelBackend).None? && position != null
      ensures r.Fail? ==> unchanged(this)
      ensures position != null ==> unchanged(position)
      ensures r.Ok? ==> labelBackend == Some(LabelHandle(Shifted(position.Value(), Offset()), labelText.value))
      ensures old(Valid()) ==> Valid()
    {
      if objectBackend.None? {
        return Fail(LabelWithoutObject);
      }
      if !NonEmptyLabel(labelText) {
        return Fail(EmptyLabel);
      }
      if labelBackend.Some? {
        return Fail(LabelAlreadyDrawn);
      }
      if position == null {
        return Fail(NoPosition);
      }
      var pos := position.Clone();
      if labelRelativePosition != null {
        pos := pos.Add(labelRelativePosition);
      }
      labelBackend := Some(LabelHandle(pos.Value(), labelText.value));
      r := Ok;
    }

    /** TickLabel as evidently intended: the object's position stays put. */
    method TickLabelCorrected() returns (r: Outcome<ObjectError>)
      modifies this`labelBackend
      ensures r.Ok? <==> position != null && objectBackend.Some? && old(labelBackend).Some?
      ensures r.Fail? ==> r.error == LabelNotTickable && unchanged(this)
      ensures position != null ==> unchanged(position)
      ensures r.Ok? ==> labelBackend == Some(old(labelBackend.value).(pos := Shifted(position.Value(), Offset())))
      ensures old(Valid()) ==> Valid()
    {
      if position == null || objectBackend.None? || labelBackend.None? {
        return Fail(LabelNotTickable);
      }
      var pos := position.Clone();
      if labelRelativePosition != null {
        pos := pos.Add(labelRelativePosition);
      }
      labelBackend := Some(labelBackend.value.(pos := pos.Value()));
      r := Ok;
    }
  }

  // ---------------------------------------------------------------------
  // Scenarios
  // ---------------------------------------------------------------------

  /** A sphere draws once; the second draw fails because the first created the backend. */
  method DrawSphereTwice() returns (first: Outcome<ObjectError>, second: Outcome<ObjectError>)
    ensures first == Ok && second == Fail(AlreadyDrawn)
  {
    var p := new Vector(1.0, 2.0, 3.0);
    var s := new Sphere(2.0, p);
    first := s.Draw(Origin);
    second := s.Draw(Origin);
  }

  /** A label draws once; the second attempt fails. */
  method DrawLabelTwice() returns (first: Outcome<ObjectError>, second: Outcome<ObjectError>)
    ensures first == Ok && second == Fail(LabelAlreadyDrawn)
  {
    var p := new Vector();
    var s := new Sphere(1.0, p);
    s.SetLabelText("q");
    var drawn := s.Draw(Origin);
    first := s.DrawLabel();
    second := s.DrawLabel();
  }

  /**
   * A sphere at the origin with a label offset of one along x: drawing the
   * label and ticking at the same position vector leaves the object two
   * units away from where it was placed.
   */
  method LabelOffsetMovesObject() returns (objectAt: Vec3)
    ensures objectAt == Vec3(2.0, 0.0, 0.0)
  {
    var p := new Vector();
    var offset := new Vector(1.0, 0.0, 0.0);
    var s := new Sphere(1.0, p);
    s.SetLabelText("q");
    s.SetLabelRelativePosition(offset);
    var drawn := s.Draw(Origin);
    assert s.objectBackend.Some? && s.position == p && p.Value() == Origin;
    var labelled := s.DrawLabel();
    assert labelled == Ok && p.Value() == Vec3(1.0, 0.0, 0.0);
    var ticked := s.Tick(p);
    objectAt := p.Value();
  }

  /** With the corrected label methods the object stays at the origin. */
  method LabelOffsetKeepsObjectCorrected() returns (objectAt: Vec3, labelAt: Vec3)
    ensures objectAt == Origin && labelAt == Vec3(1.0, 0.0, 0.0)
  {
    var p := new Vector();
    var offset := new Vector(1.0, 0.0, 0.0);
    var s := new Sphere(1.0, p);
    s.SetLabelText("q");
    s.SetLabelRelativePosition(offset);
    var drawn := s.Draw(Origin);
    var labelled := s.DrawLabelCorrected();
    var ticked := s.TickObject();
    ticked := s.TickLabelCorrected();
    objectAt := p.Value();
    labelAt := s.labelBackend.value.pos;
  }
}
