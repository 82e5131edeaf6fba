/**
 * The drawing editor's state machine: the committed strokes, the stroke in
 * progress, the drawing flag, the last pointer position, the brush and the
 * character's name, and the handlers that replace or extend them. The pixels
 * themselves (clearing, redrawing, exporting the PNG) are not modelled.
 */
module DrawCanvas {
  import opened Wrappers
  import opened JsString

  /** A pointer position in CSS pixels. */
  datatype Point = Point(x: real, y: real)

  /** A stroke: its colour, its brush width and the points it passes through. */
  datatype Stroke = Stroke(color: string, width: int, points: seq<Point>)

  /** The brush sizes the toolbar offers. */
  predicate IsBrushSize(n: int)
  {
    n == 4 || n == 8 || n == 16
  }

  /** The colours the toolbar offers. */
  predicate IsPaletteColor(c: string)
  {
    c == "#71f37aff" || c == "#f37171ff" || c == "#797bebff" || c == "white"
  }

  /** A stroke drawn with the toolbar's brush: at least one point, an offered size and colour. */
  predicate WellDrawn(s: Stroke)
  {
    |s.points| >= 1 && IsBrushSize(s.width) && IsPaletteColor(s.color)
  }

  /** The stroke list after an undo: `prev.slice(0, -1)`. */
  function DropLast(strokes: seq<Stroke>): (rest: seq<Stroke>)
    ensures strokes == [] ==> rest == []
    ensures strokes != [] ==> |rest| == |strokes| - 1 && rest + [strokes[|strokes| - 1]] == strokes
  {
    if strokes == [] then [] else strokes[..|strokes| - 1]
  }

  /** Undoing a stroke that was just committed gives the strokes before it back. */
  lemma UndoAfterCommit(strokes: seq<Stroke>, s: Stroke)
    ensures DropLast(strokes + [s]) == strokes
  {
    assert (strokes + [s])[..|strokes|] == strokes;
  }

  /** The editor. `ready` says whether the canvas and its 2D context exist. */
  class Editor {
    const ready: bool
    var brushSize: int
    var color: string
    var strokes: seq<Stroke>
    var currentStroke: Option<Stroke>
    var drawing: bool
    var lastPoint: Option<Point>
    var charName: string

    /** Every stroke, committed or in progress, was drawn with the toolbar's brush. */
    ghost predicate Valid()
      reads this
    {
      && IsBrushSize(brushSize) && IsPaletteColor(color)
      && (forall i :: 0 <= i < |strokes| ==> WellDrawn(strokes[i]))
      && (currentStroke.Some? ==> WellDrawn(currentStroke.value))
    }

    /**
     * `handleSave`'s guard: a non-blank name, and a committed stroke or a
     * stroke in progress with at least one point.
     */
    predicate CanSave()
      reads this
    {
      var hasInProgress := currentStroke.Some? && |currentStroke.value.points| > 0;
      Trim(charName) != "" && (|strokes| > 0 || hasInProgress)
    }

    /** The Save button's `disabled` expression. */
    predicate SaveDisabled(saving: bool)
      reads this
    {
      || Trim(charName) == ""
      || (strokes == [] && !(currentStroke.Some? && |currentStroke.value.points| != 0))
      || saving
    }

    /** The button is disabled exactly when the save would be refused or a save is already running. */
    lemma DisabledIffRefused(saving: bool)
      ensures SaveDisabled(saving) <==> !CanSave() || saving
    {
    }

    /**
     * Since every stroke has a point, the guard only asks for a non-blank
     * name and some stroke, committed or in progress.
     */
    lemma CanSaveWhenSomethingDrawn()
      requires Valid()
      ensures CanSave() <==> !IsBlank(charName) && (strokes != [] || currentStroke.Some?)
    {
      TrimEmptyIffBlank(charName);
    }

    /** The editor as first rendered: medium white brush, nothing drawn, no name. */
    constructor (ready: bool)
      ensures Valid() && this.ready == ready
      ensures brushSize == 8 && color == "white" && strokes == [] && currentStroke.None?
      ensures !drawing && lastPoint.None? && charName == ""
    {
      this.ready := ready;
      brushSize, color, strokes, currentStroke := 8, "white", [], None;
      drawing, lastPoint, charName := false, None, "";
    }

    /**
     * `onPointerDown`: ignored for a button other than the primary one unless
     * the pointer is a touch, and when the canvas is missing; otherwise
     * drawing starts a one-point stroke in the current colour and size,
     * replacing any stroke still in progress.
     */
    method PointerDown(button: int, pointerType: string, p: Point)
      requires Valid()
      modifies this`drawing, this`lastPoint, this`currentStroke
      ensures Valid()
      ensures (button != 0 && pointerType != "touch") || !ready ==>
                drawing == old(drawing) && lastPoint == old(lastPoint) && currentStroke == old(currentStroke)
      ensures (button == 0 || pointerType == "touch") && ready ==>
                drawing && lastPoint == Some(p) && currentStroke == Some(Stroke(color, brushSize, [p]))
    {
      if button != 0 && pointerType != "touch" {
        return;
      }
      if !ready {
        return;
      }
      drawing := true;
      lastPoint := Some(p);
      currentStroke := Some(Stroke(color, brushSize, [p]));
    }

    /**
     * `onPointerMove`: while drawing, the point is appended to the stroke in
     * progress, whose earlier points, colour and width are kept; with no
     * stroke in progress (cleared mid-stroke) nothing is drawn.
     */
    method PointerMove(p: Point)
      requires Valid()
      modifies this`lastPoint, this`currentStroke
      ensures Valid()
      ensures !old(drawing) || !ready ==> lastPoint == old(lastPoint) && currentStroke == old(currentStroke)
      ensures old(drawing) && ready ==> lastPoint == Some(p)
      ensures old(drawing) && ready && old(currentStroke).None? ==> currentStroke.None?
      ensures old(drawing) && ready && old(currentStroke).Some? ==>
                && currentStroke.Some?
                && currentStroke.value.points == old(currentStroke).value.points + [p]
                && currentStroke.value.color == old(currentStroke).value.color
                && currentStroke.value.width == old(currentStroke).value.width
    {
      if !drawing {
        return;
      }
      if !ready {
        return;
      }
      lastPoint := Some(p);
      match currentStroke
      case None =>
      case Some(prev) =>
        currentStroke := Some(prev.(points := prev.points + [p]));
    }

    /**
     * `onPointerUpOrLeave`: drawing stops; when the canvas is there, a stroke
     * in progress is committed at the end of the list.
     */
    method PointerUpOrLeave()
      requires Valid()
      modifies this`drawing, this`lastPoint, this`strokes, this`currentStroke
      ensures Valid()
      ensures !drawing && lastPoint.None?
      ensures !ready ==> strokes == old(strokes) && currentStroke == old(currentStroke)
      ensures ready ==> currentStroke.None?
      ensures ready && old(currentStroke).None? ==> strokes == old(strokes)
      ensures ready && old(currentStroke).Some? ==> strokes == old(strokes) + [old(currentStroke).value]
    {
      drawing := false;
      lastPoint := None;
      if !ready {
        return;
      }
      match currentStroke
      case None =>
      case Some(prev) =>
        strokes := strokes + [prev];
        currentStroke := None;
    }

    /** `handleUndo`: the last committed stroke goes; the others stay, in order. */
    method Undo()
      requires Valid()
      modifies this`strokes
      ensures Valid()
      ensures !ready ==> strokes == old(strokes)
      ensures ready ==> strokes == DropLast(old(strokes))
    {
      if !ready {
        return;
      }
      strokes := DropLast(strokes);
    }

    /** `clearCanvas`: no stroke is left, committed or in progress. The drawing flag stays. */
    method Clear()
      requires Valid()
      modifies this`strokes, this`currentStroke
      ensures Valid()
      ensures !ready ==> strokes == old(strokes) && currentStroke == old(currentStroke)
      ensures ready ==> strokes == [] && currentStroke.None?
    {
      if !ready {
        return;
      }
      strokes := [];
      currentStroke := None;
    }

    /**
     * `handleSave`: when the canvas is there and the guard holds, the trimmed
     * name is handed to `onSave` and the editor is reset to an empty canvas
     * and an empty name; otherwise nothing happens.
     */
    method Save() returns (submitted: Option<string>)
      requires Valid()
      modifies this`charName, this`strokes, this`currentStroke
      ensures Valid()
      ensures !ready || !old(CanSave()) ==>
                submitted.None? && charName == old(charName) && strokes == old(strokes)
                && currentStroke == old(currentStroke)
      ensures ready && old(CanSave()) ==>
                && submitted == Some(Trim(old(charName)))
                && charName == "" && strokes == [] && currentStroke.None?
    {
      if !ready {
        return None;
      }
      if !CanSave() {
        return None;
      }
      submitted := Some(Trim(charName));
      charName := "";
      strokes := [];
      currentStroke := None;
    }

    /** The name input's `onChange`. */
    method EditName(value: string)
      requires Valid()
      modifies this`charName
      ensures Valid() && charName == value
    {
      charName := value;
    }

    /** A brush-size button. */
    method SetBrushSize(size: int)
      requires Valid() && IsBrushSize(size)
      modifies this`brushSize
      ensures Valid() && brushSize == size
    {
      brushSize := size;
    }

    /** A colour button. */
    method SetColor(c: string)
      requires Valid() && IsPaletteColor(c)
      modifies this`color
      ensures Valid() && color == c
    {
      color := c;
    }
  }

  /** A name handed to `onSave` is never blank and has no surrounding whitespace. */
  lemma SubmittedNameIsTrimmed(name: string)
    requires Trim(name) != ""
    ensures !IsBlank(Trim(name)) && Trim(Trim(name)) == Trim(name)
  {
    TrimEmptyIffBlank(Trim(name));
    TrimIdempotent(name);
  }
}
