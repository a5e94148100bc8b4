/** The abstract PDF the fillers work on: pages of form widgets, each
    widget a name and a value, and the image-only document that
    flattening produces, on which overlays are drawn as text commands. */
module Document {
  import opened FieldMap
  import opened Json

  /** A widget value: PyMuPDF accepts a string or, for a checkbox, `True`. */
  datatype FieldValue = Text(s: string) | Checked(on: bool)

  datatype Widget = Widget(name: string, value: FieldValue)

  datatype Page = Page(width: int, height: int, widgets: seq<Widget>)

  /** A page of a flattened document: an image of a source page, at the
      source page's size, showing the widgets the page held when it was
      rendered. */
  datatype ImagePage = ImagePage(width: int, height: int, shows: seq<Widget>)

  /** `insert_text((x, y), text, fontsize=size)` on page `page`. */
  datatype Draw = Draw(page: nat, x: int, y: int, text: string, size: nat)

  /** An open, fillable document. Filling changes its widgets in place. */
  class Pdf {
    var pages: seq<Page>

    constructor(ps: seq<Page>)
      ensures pages == ps
    {
      pages := ps;
    }
  }

  /** `page.get_pixmap` followed by `new_page(width, height)` and
      `insert_image`: an image page of the same size. */
  function Render(p: Page): ImagePage {
    ImagePage(p.width, p.height, p.widgets)
  }

  /** Every widget occurrence of a document. */
  function WidgetTotal(ps: seq<Page>): nat {
    if ps == [] then 0 else WidgetTotal(ps[..|ps| - 1]) + |ps[|ps| - 1].widgets|
  }

  /** The widget names on a page. */
  function NamesOf(ws: seq<Widget>): (names: set<string>)
    ensures forall w :: w in ws ==> w.name in names
    ensures forall n :: n in names ==> exists w :: w in ws && w.name == n
  {
    set w | w in ws :: w.name
  }

  /** The widget names of a whole document. */
  function AllNames(ps: seq<Page>): (names: set<string>)
    ensures forall n :: n in names <==> exists p :: p in ps && n in NamesOf(p.widgets)
  {
    if ps == [] then {}
    else
      var init := ps[..|ps| - 1];
      assert forall p :: p in ps <==> p in init || p == ps[|ps| - 1];
      AllNames(init) + NamesOf(ps[|ps| - 1].widgets)
  }

  /** Flattening: every source page, in order, rendered to an image page
      of the same size. */
  method Flatten(src: seq<Page>) returns (dst: seq<ImagePage>)
    ensures |dst| == |src|
    ensures forall i :: 0 <= i < |src| ==>
      dst[i].width == src[i].width && dst[i].height == src[i].height && dst[i].shows == src[i].widgets
  {
    dst := [];
    var i := 0;
    while i < |src|
      invariant 0 <= i <= |src| && |dst| == i
      invariant forall j :: 0 <= j < i ==> dst[j] == Render(src[j])
    {
      dst := dst + [Render(src[i])];
      i := i + 1;
    }
  }
}
