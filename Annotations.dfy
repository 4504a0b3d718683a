/**
 * The photo-annotation tool of `AnnotatedPhotoUpload.tsx`: a list of photos,
 * each with an ordered list of annotations, and the canvas event handlers
 * that place circles (saved on click) and two-point lines (drafted on click,
 * extended on the first mouse move, saved on mouse up).
 *
 * Coordinates are the integers the handlers compute, `clientX - rect.left`
 * and `clientY - rect.top`, in the canvas's display space. The bounding-rect
 * offsets and the text returned by the browser's note prompt are parameters.
 */
module Annotations {
  import opened Options
  import Seqs

  datatype AnnotationKind = GreenCircle | RedCircle | BlueCircle | YellowLine | PinkLine

  /** The string tag stored in an annotation's `type` field. */
  function KindName(k: AnnotationKind): string
  {
    match k
    case GreenCircle => "green-circle"
    case RedCircle => "red-circle"
    case BlueCircle => "blue-circle"
    case YellowLine => "yellow-line"
    case PinkLine => "pink-line"
  }

  /** `sub` occurs in `s` starting at index `i`. */
  predicate OccursAt(s: string, sub: string, i: nat)
  {
    i + |sub| <= |s| && s[i..i + |sub|] == sub
  }

  /** `s.includes(sub)` */
  predicate Contains(s: string, sub: string)
  {
    exists i: nat | i <= |s| :: OccursAt(s, sub, i)
  }

  /**
   * `s` cannot contain `sub` when `sub` fits only at indices below `lo`
   * and character `j` of `sub` does not occur in `s[j..lo + j]`.
   */
  lemma NotContains(s: string, sub: string, j: nat, lo: nat)
    requires j < |sub| && |s| < lo + |sub|
    requires forall i :: j <= i < lo + j && i < |s| ==> s[i] != sub[j]
    ensures !Contains(s, sub)
  {
    forall i: nat | i <= |s|
      ensures !OccursAt(s, sub, i)
    {
      if i + |sub| <= |s| {
        assert s[i..i + |sub|][j] == s[i + j];
      }
    }
  }

  /** The handlers classify a kind by substring search on its tag. */
  predicate IsCircle(k: AnnotationKind)
  {
    Contains(KindName(k), "circle")
  }

  predicate IsLine(k: AnnotationKind)
  {
    Contains(KindName(k), "line")
  }

  /** The substring tests split the five kinds into three circles and two lines. */
  lemma ShapeClassification(k: AnnotationKind)
    ensures IsCircle(k) <==> k == GreenCircle || k == RedCircle || k == BlueCircle
    ensures IsLine(k) <==> k == YellowLine || k == PinkLine
    ensures IsCircle(k) != IsLine(k)
  {
    match k
    case GreenCircle =>
      assert OccursAt(KindName(k), "circle", 6);
      NotContains(KindName(k), "line", 0, 9);
    case RedCircle =>
      assert OccursAt(KindName(k), "circle", 4);
      NotContains(KindName(k), "line", 0, 7);
    case BlueCircle =>
      assert OccursAt(KindName(k), "circle", 5);
      NotContains(KindName(k), "line", 2, 8);
    case YellowLine =>
      assert OccursAt(KindName(k), "line", 7);
      NotContains(KindName(k), "circle", 0, 6);
    case PinkLine =>
      assert OccursAt(KindName(k), "line", 5);
      NotContains(KindName(k), "circle", 0, 4);
  }

  datatype Point = Point(x: int, y: int)

  /**
   * One annotation as the component stores it. `width`/`height` are 40 for a
   * circle and 0 for a line; `points` is absent for a circle and holds the
   * line's anchor (and, once the pointer has moved, its end point).
   */
  datatype Annotation = Annotation(
    kind: AnnotationKind,
    x: int,
    y: int,
    width: int,
    height: int,
    points: Option<seq<Point>>,
    note: Option<string>)

  datatype Photo = Photo(id: string, src: string, alt: string, annotations: seq<Annotation>)

  /** The six photos the tool starts with, none annotated yet. */
  function DemoPhotos(): (r: seq<Photo>)
    ensures |r| == 6
    ensures forall i, j :: 0 <= i < j < |r| ==> r[i].id != r[j].id
    ensures forall i :: 0 <= i < |r| ==> r[i].annotations == []
  {
    [ Photo("1", "https://images.unsplash.com/photo-1472396961693-142e6e269027", "Property view with trees", []),
      Photo("2", "https://images.unsplash.com/photo-1466721591366-2d5fba72006d", "Lawn with trees", []),
      Photo("3", "https://images.unsplash.com/photo-1493962853295-0fd70327578a", "House with large trees", []),
      Photo("4", "https://images.unsplash.com/photo-1506744038136-46273834b3fb", "Aerial view of property", []),
      Photo("5", "https://images.unsplash.com/photo-1501854140801-50d01698950b", "Aerial boundary view", []),
      Photo("6", "https://images.unsplash.com/photo-1615729947596-a598e5de0ab3", "Property boundary wall", []) ]
  }

  /** The record a canvas click builds for the currently selected kind. */
  function ClickAnnotation(kind: AnnotationKind, x: int, y: int): (a: Annotation)
  {
    Annotation(
      kind, x, y,
      if IsCircle(kind) then 40 else 0,
      if IsCircle(kind) then 40 else 0,
      if IsLine(kind) then Some([Point(x, y)]) else None,
      None)
  }

  /** A committed circle: a 40-by-40 box around the click, no points. */
  predicate CommittedCircle(a: Annotation)
  {
    IsCircle(a.kind) && a.width == 40 && a.height == 40 && a.points == None
  }

  /** A line that has an anchor at (x, y) and one or two points in all. */
  predicate LineShape(a: Annotation)
  {
    && IsLine(a.kind) && a.width == 0 && a.height == 0
    && a.points.Some? && 1 <= |a.points.value| <= 2
    && a.points.value[0] == Point(a.x, a.y)
  }

  /** What can be in a photo's annotation list: a circle, or a line with exactly two points. */
  predicate WellFormed(a: Annotation)
  {
    CommittedCircle(a) || (LineShape(a) && |a.points.value| == 2)
  }

  /** The in-progress annotation: a line with its anchor and at most one further point. */
  predicate Draft(a: Annotation)
  {
    LineShape(a) && a.note == None
  }

  /** A click with a circle kind builds a committed circle; with a line kind, a one-point draft. */
  lemma ClickShape(kind: AnnotationKind, x: int, y: int)
    ensures IsCircle(kind) ==> CommittedCircle(ClickAnnotation(kind, x, y))
    ensures IsCircle(kind) ==> ClickAnnotation(kind, x, y).x == x && ClickAnnotation(kind, x, y).y == y
    ensures IsLine(kind) ==> Draft(ClickAnnotation(kind, x, y))
    ensures IsLine(kind) ==> ClickAnnotation(kind, x, y).points == Some([Point(x, y)])
  {
    ShapeClassification(kind);
  }

  /** The circle radius the renderer uses: `(width || 40) / 2`. */
  function Radius(a: Annotation): real
  {
    (if a.width == 0 then 40 else a.width) as real / 2.0
  }

  /** Every committed circle is drawn with radius 20. */
  lemma CommittedCircleRadius(a: Annotation)
    requires WellFormed(a) && IsCircle(a.kind)
    ensures Radius(a) == 20.0
  {
    ShapeClassification(a.kind);
  }

  /** `note || undefined`: a cancelled prompt (null) or an empty note is stored as no note. */
  function NormalizeNote(note: Option<string>): (r: Option<string>)
    ensures r == None <==> note == None || note == Some("")
    ensures r.Some? ==> r == note
  {
    match note
    case None => None
    case Some(text) => if text == "" then None else Some(text)
  }

  /** `{ ...annotation, note: note || undefined }` */
  function WithNote(a: Annotation, note: Option<string>): (r: Annotation)
    ensures r.note == NormalizeNote(note)
    ensures r.(note := a.note) == a
  {
    a.(note := NormalizeNote(note))
  }

  /**
   * `photos.map(p => p.id === id ? { ...p, annotations: [...p.annotations, a] } : p)`
   */
  function AppendToPhoto(photos: seq<Photo>, id: string, a: Annotation): (r: seq<Photo>)
    ensures |r| == |photos|
    ensures forall i :: 0 <= i < |r| && photos[i].id != id ==> r[i] == photos[i]
    ensures forall i :: 0 <= i < |r| && photos[i].id == id ==>
      r[i] == photos[i].(annotations := photos[i].annotations + [a])
  {
    if photos == [] then []
    else
      var p := photos[0];
      [if p.id == id then p.(annotations := p.annotations + [a]) else p]
        + AppendToPhoto(photos[1..], id, a)
  }

  /** The number of annotations over all photos. */
  function TotalAnnotations(photos: seq<Photo>): nat
  {
    if photos == [] then 0 else |photos[0].annotations| + TotalAnnotations(photos[1..])
  }

  function CountId(photos: seq<Photo>, id: string): nat
  {
    if photos == [] then 0
    else (if photos[0].id == id then 1 else 0) + CountId(photos[1..], id)
  }

  /** Saving adds one annotation per photo carrying the id: exactly one when ids are unique. */
  lemma {:induction false} AppendCount(photos: seq<Photo>, id: string, a: Annotation)
    ensures TotalAnnotations(AppendToPhoto(photos, id, a)) == TotalAnnotations(photos) + CountId(photos, id)
  {
    if photos != [] {
      AppendCount(photos[1..], id, a);
      assert AppendToPhoto(photos, id, a)[1..] == AppendToPhoto(photos[1..], id, a);
    }
  }

  lemma {:induction false} CountIdOfUnique(photos: seq<Photo>, k: nat)
    requires k < |photos|
    requires forall i, j :: 0 <= i < j < |photos| ==> photos[i].id != photos[j].id
    ensures CountId(photos, photos[k].id) == 1
  {
    var id := photos[k].id;
    if k == 0 {
      CountIdAbsent(photos[1..], id);
    } else {
      CountIdOfUnique(photos[1..], k - 1);
    }
  }

  lemma {:induction false} CountIdAbsent(photos: seq<Photo>, id: string)
    requires forall i :: 0 <= i < |photos| ==> photos[i].id != id
    ensures CountId(photos, id) == 0
  {
    if photos != [] {
      CountIdAbsent(photos[1..], id);
    }
  }

  predicate AllWellFormed(photos: seq<Photo>)
  {
    forall i, k :: 0 <= i < |photos| && 0 <= k < |photos[i].annotations| ==>
      WellFormed(photos[i].annotations[k])
  }

  /** No two photos share an id. */
  predicate UniqueIds(photos: seq<Photo>)
  {
    forall i, j :: 0 <= i < j < |photos| ==> photos[i].id != photos[j].id
  }

  /** Some photo carries the id. */
  predicate HasId(photos: seq<Photo>, id: string)
  {
    exists i :: 0 <= i < |photos| && photos[i].id == id
  }

  /** With unique ids, saving to a listed photo adds exactly one annotation over all photos. */
  lemma SaveAddsOne(photos: seq<Photo>, id: string, a: Annotation)
    requires UniqueIds(photos) && HasId(photos, id)
    ensures TotalAnnotations(AppendToPhoto(photos, id, a)) == TotalAnnotations(photos) + 1
  {
    var k :| 0 <= k < |photos| && photos[k].id == id;
    AppendCount(photos, id, a);
    CountIdOfUnique(photos, k);
  }

  /** `ann.type.replace('-', ' ')`: a string pattern replaces only its first occurrence. */
  function ReplaceFirst(s: string, from: char, to: char): (r: string)
  {
    if s == [] then []
    else if s[0] == from then [to] + s[1..]
    else [s[0]] + ReplaceFirst(s[1..], from, to)
  }

  /** Only the first occurrence changes; without one the string is unchanged. */
  lemma {:induction false} ReplaceFirstSpec(s: string, from: char, to: char)
    ensures from !in s ==> ReplaceFirst(s, from, to) == s
    ensures from in s ==>
      var k := Seqs.FirstIndex(s, from);
      && |ReplaceFirst(s, from, to)| == |s|
      && ReplaceFirst(s, from, to)[k] == to
      && forall i :: 0 <= i < |s| && i != k ==> ReplaceFirst(s, from, to)[i] == s[i]
  {
    if s != [] && s[0] != from {
      ReplaceFirstSpec(s[1..], from, to);
      assert [s[0]] + s[1..] == s;
    }
  }

  /** The sidebar heading of an annotation. */
  function Label(k: AnnotationKind): string
  {
    ReplaceFirst(KindName(k), '-', ' ')
  }

  /** With the first `from` at index `k`, only that character is replaced. */
  lemma {:induction false} ReplaceFirstAt(s: string, from: char, to: char, k: nat)
    requires k < |s| && s[k] == from && from !in s[..k]
    ensures ReplaceFirst(s, from, to) == s[..k] + [to] + s[k + 1..]
  {
    if k > 0 {
      assert s[1..][..k - 1] == s[..k][1..];
      ReplaceFirstAt(s[1..], from, to, k - 1);
      assert s[..k] == [s[0]] + s[1..][..k - 1];
    }
  }

  /** Sidebar headings: the tag with its dash turned into a space. */
  lemma LabelOf(k: AnnotationKind)
    ensures k == GreenCircle ==> Label(k) == "green circle"
    ensures k == RedCircle ==> Label(k) == "red circle"
    ensures k == BlueCircle ==> Label(k) == "blue circle"
    ensures k == YellowLine ==> Label(k) == "yellow line"
    ensures k == PinkLine ==> Label(k) == "pink line"
  {
    match k
    case GreenCircle => LabelGreenCircle();
    case RedCircle => LabelRedCircle();
    case BlueCircle => LabelBlueCircle();
    case YellowLine => LabelYellowLine();
    case PinkLine => LabelPinkLine();
  }

  lemma LabelGreenCircle()
    ensures Label(GreenCircle) == "green circle"
  {
    ReplaceFirstAt("green-circle", '-', ' ', 5);
  }

  lemma LabelRedCircle()
    ensures Label(RedCircle) == "red circle"
  {
    ReplaceFirstAt("red-circle", '-', ' ', 3);
  }

  lemma LabelBlueCircle()
    ensures Label(BlueCircle) == "blue circle"
  {
    ReplaceFirstAt("blue-circle", '-', ' ', 4);
  }

  lemma LabelYellowLine()
    ensures Label(YellowLine) == "yellow line"
  {
    ReplaceFirstAt("yellow-line", '-', ' ', 6);
  }

  lemma LabelPinkLine()
    ensures Label(PinkLine) == "pink line"
  {
    ReplaceFirstAt("pink-line", '-', ' ', 4);
  }

  /**
   * The component's state: the photo list, the photo open in the editor
   * (a copy taken when it was opened), the editor flag, the kind chosen
   * with the radio buttons and the in-progress annotation.
   */
  class PhotoAnnotator {
    var photos: seq<Photo>
    var selectedPhoto: Option<Photo>
    var isAnnotating: bool
    var annotationType: AnnotationKind
    var currentAnnotation: Option<Annotation>

    /**
     * Stored annotations are circles or two-point lines, photo ids are
     * unique and the open photo's id is listed; a draft is a line of one or
     * two points.
     */
    ghost predicate Valid()
      reads this
    {
      StoredValid() && DraftValid()
    }

    ghost predicate StoredValid()
      reads this
    {
      && AllWellFormed(photos)
      && UniqueIds(photos)
      && (selectedPhoto.Some? ==> HasId(photos, selectedPhoto.value.id))
      && (selectedPhoto.Some? ==> AllWellFormed([selectedPhoto.value]))
    }

    ghost predicate DraftValid()
      reads this
    {
      currentAnnotation.Some? ==> Draft(currentAnnotation.value)
    }

    constructor ()
      ensures Valid()
      ensures photos == DemoPhotos() && selectedPhoto == None && !isAnnotating
      ensures annotationType == GreenCircle && currentAnnotation == None
    {
      photos := DemoPhotos();
      selectedPhoto := None;
      isAnnotating := false;
      annotationType := GreenCircle;
      currentAnnotation := None;
    }

    /** `openAnnotationMode`: called with one of the listed photos. */
    method Open(photo: Photo)
      requires Valid() && photo in photos
      modifies this
      ensures Valid()
      ensures selectedPhoto == Some(photo) && isAnnotating
      ensures photos == old(photos) && annotationType == old(annotationType)
      ensures currentAnnotation == old(currentAnnotation)
    {
      selectedPhoto := Some(photo);
      isAnnotating := true;
    }

    /** `closeAnnotationMode` */
    method Close()
      requires Valid()
      modifies this
      ensures Valid()
      ensures selectedPhoto == None && !isAnnotating && currentAnnotation == None
      ensures photos == old(photos) && annotationType == old(annotationType)
    {
      selectedPhoto := None;
      isAnnotating := false;
      currentAnnotation := None;
    }

    /** The radio buttons' `setAnnotationType`. */
    method SelectType(kind: AnnotationKind)
      requires Valid()
      modifies this
      ensures Valid()
      ensures annotationType == kind
      ensures photos == old(photos) && selectedPhoto == old(selectedPhoto)
      ensures isAnnotating == old(isAnnotating) && currentAnnotation == old(currentAnnotation)
    {
      annotationType := kind;
    }

    /**
     * `saveAnnotation`: `note` is what the browser's prompt returned. With a
     * photo open, the annotation (note normalised) is appended to every photo
     * with that photo's id and the draft is cleared. The open photo's copy is
     * not refreshed.
     */
    method Save(annotation: Annotation, note: Option<string>)
      requires StoredValid() && WellFormed(annotation)
      requires selectedPhoto.None? ==> DraftValid()
      modifies this
      ensures Valid()
      ensures old(selectedPhoto).None? ==> photos == old(photos) && currentAnnotation == old(currentAnnotation)
      ensures old(selectedPhoto).Some? ==>
        && photos == AppendToPhoto(old(photos), old(selectedPhoto).value.id, WithNote(annotation, note))
        && currentAnnotation == None
      ensures old(selectedPhoto).Some? ==> TotalAnnotations(photos) == old(TotalAnnotations(photos)) + 1
      ensures selectedPhoto == old(selectedPhoto) && isAnnotating == old(isAnnotating)
      ensures annotationType == old(annotationType)
    {
      if selectedPhoto.None? {
        return;
      }
      var updated := WithNote(annotation, note);
      AppendKeepsWellFormed(photos, selectedPhoto.value.id, updated);
      SaveAddsOne(photos, selectedPhoto.value.id, updated);
      photos := AppendToPhoto(photos, selectedPhoto.value.id, updated);
      currentAnnotation := None;
    }

    /**
     * `handleCanvasClick` at client position (clientX, clientY) over a canvas
     * whose bounding rectangle starts at (left, top). `note` is the prompt's
     * answer, used only when a circle is saved.
     */
    method Click(clientX: int, clientY: int, left: int, top: int, note: Option<string>)
      requires Valid()
      modifies this
      ensures Valid()
      ensures old(selectedPhoto).None? ==>
        photos == old(photos) && currentAnnotation == old(currentAnnotation)
      ensures old(selectedPhoto).Some? && IsCircle(annotationType) ==>
        && photos == AppendToPhoto(old(photos), old(selectedPhoto).value.id,
                                   WithNote(ClickAnnotation(annotationType, clientX - left, clientY - top), note))
        && TotalAnnotations(photos) == old(TotalAnnotations(photos)) + 1
        && currentAnnotation == None
      ensures old(selectedPhoto).Some? && !IsCircle(annotationType) ==>
        && photos == old(photos)
        && currentAnnotation == Some(ClickAnnotation(annotationType, clientX - left, clientY - top))
      ensures selectedPhoto == old(selectedPhoto) && isAnnotating == old(isAnnotating)
      ensures annotationType == old(annotationType)
    {
      if selectedPhoto.None? {
        return;
      }
      var x := clientX - left;
      var y := clientY - top;
      var annotation := ClickAnnotation(annotationType, x, y);
      ClickShape(annotationType, x, y);
      ShapeClassification(annotationType);
      currentAnnotation := Some(annotation);
      if IsCircle(annotationType) {
        Save(annotation, note);
      }
    }

    /**
     * `handleCanvasMouseMove`: with a draft and a line kind selected, a draft
     * of one point gains the pointer position as its second point; a draft of
     * two points stays as it is.
     */
    method MouseMove(clientX: int, clientY: int, left: int, top: int)
      requires Valid()
      modifies this
      ensures Valid()
      ensures
        var d := old(currentAnnotation);
        if d.Some? && IsLine(annotationType) && |d.value.points.value| == 1 then
          currentAnnotation == Some(d.value.(points := Some(d.value.points.value + [Point(clientX - left, clientY - top)])))
        else
          currentAnnotation == d
      ensures photos == old(photos) && selectedPhoto == old(selectedPhoto)
      ensures isAnnotating == old(isAnnotating) && annotationType == old(annotationType)
    {
      if currentAnnotation.None? || !IsLine(annotationType) {
        return;
      }
      var d := currentAnnotation.value;
      if d.points.Some? && |d.points.value| == 1 {
        currentAnnotation := Some(d.(points := Some(d.points.value + [Point(clientX - left, clientY - top)])));
      }
    }

    /** `handleCanvasMouseUp`: only a line draft with two points is saved. */
    method MouseUp(note: Option<string>)
      requires Valid()
      modifies this
      ensures Valid()
      ensures
        var d := old(currentAnnotation);
        if d.Some? && IsLine(annotationType) && |d.value.points.value| > 1 && selectedPhoto.Some? then
          && photos == AppendToPhoto(old(photos), selectedPhoto.value.id, WithNote(d.value, note))
          && TotalAnnotations(photos) == old(TotalAnnotations(photos)) + 1
          && currentAnnotation == None
        else
          photos == old(photos) && currentAnnotation == d
      ensures selectedPhoto == old(selectedPhoto) && isAnnotating == old(isAnnotating)
      ensures annotationType == old(annotationType)
    {
      if currentAnnotation.Some? && IsLine(annotationType)
         && currentAnnotation.value.points.Some? && |currentAnnotation.value.points.value| > 1
      {
        Save(currentAnnotation.value, note);
      }
    }

    /** The headings the sidebar lists: those of the open photo's copy, in order. */
    function SidebarLabels(): (r: seq<string>)
      reads this
      ensures selectedPhoto.None? ==> r == []
      ensures selectedPhoto.Some? ==> |r| == |selectedPhoto.value.annotations|
      ensures selectedPhoto.Some? ==> forall i :: 0 <= i < |r| ==>
        r[i] == ReplaceFirst(KindName(selectedPhoto.value.annotations[i].kind), '-', ' ')
    {
      match selectedPhoto
      case None => []
      case Some(photo) =>
        var anns := photo.annotations;
        seq(|anns|, i requires 0 <= i < |anns| => Label(anns[i].kind))
    }
  }

  /** A saved annotation keeps everything before it and sits last in its photo's list. */
  lemma SaveAppendsLast(photos: seq<Photo>, id: string, a: Annotation, i: nat)
    requires i < |photos| && photos[i].id == id
    ensures
      var q := AppendToPhoto(photos, id, a)[i];
      && |q.annotations| == |photos[i].annotations| + 1
      && q.annotations[..|photos[i].annotations|] == photos[i].annotations
      && q.annotations[|q.annotations| - 1] == a
      && q.id == id && q.src == photos[i].src && q.alt == photos[i].alt
  {
  }

  /** Appending a well-formed annotation keeps every photo's list well-formed. */
  lemma AppendKeepsWellFormed(photos: seq<Photo>, id: string, a: Annotation)
    requires AllWellFormed(photos) && WellFormed(a)
    ensures AllWellFormed(AppendToPhoto(photos, id, a))
  {
    var r := AppendToPhoto(photos, id, a);
    forall i, k | 0 <= i < |r| && 0 <= k < |r[i].annotations|
      ensures WellFormed(r[i].annotations[k])
    {
      if photos[i].id == id && k == |photos[i].annotations| {
        assert r[i].annotations[k] == a;
      } else {
        assert r[i].annotations[k] == photos[i].annotations[k];
      }
    }
  }
}
