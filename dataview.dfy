/** The data view of one database (`renderDataView` in public/app.js): it
    starts as a table and each click on "Cambia Vista" flips between the
    table and the gallery and redraws. */
module DataView {
  import opened Table
  import opened Gallery

  /** The `currentView` variable: 'table' or 'gallery'. */
  datatype View = TableMode | GalleryMode

  /** What the `dataView` element currently shows. */
  datatype Screen = ShowsTable(table: TableView) | ShowsGallery(gallery: GalleryView)

  /** `currentView === 'table' ? 'gallery' : 'table'`. */
  function Flip(v: View): (w: View)
    ensures w != v
  {
    if v == TableMode then GalleryMode else TableMode
  }

  /** Flipping twice gives back the view it started from. */
  lemma FlipTwice(v: View)
    ensures Flip(Flip(v)) == v
  {
  }

  /** The screen drawn for a view of the rows. */
  function ScreenFor(v: View, rows: seq<Page>): Screen
  {
    match v
    case TableMode => ShowsTable(TableOf(rows))
    case GalleryMode => ShowsGallery(GalleryOf(rows))
  }

  class DataViewer {
    const rows: seq<Page>
    var currentView: View
    var screen: Screen
    /** Number of clicks on the toggle button so far. */
    ghost var clicks: nat

    /** The view is the table after an even number of clicks and the
        gallery after an odd number, and the screen shows that view. */
    ghost predicate Valid()
      reads this
    {
      && currentView == (if clicks % 2 == 0 then TableMode else GalleryMode)
      && screen == ScreenFor(currentView, rows)
    }

    /** `renderDataView(data)`: start in the table view and draw it. */
    constructor (data: seq<Page>)
      ensures Valid()
      ensures rows == data && clicks == 0
      ensures currentView == TableMode && screen == ShowsTable(TableOf(data))
    {
      rows := data;
      currentView := TableMode;
      clicks := 0;
      var table := RenderTableView(data);
      screen := ShowsTable(table);
    }

    /** The toggle button's click handler. */
    method Toggle()
      requires Valid()
      requires Flip(currentView) == GalleryMode ==> RowsReadable(rows)
      modifies this
      ensures Valid()
      ensures clicks == old(clicks) + 1
      ensures currentView == Flip(old(currentView))
      ensures screen == ScreenFor(currentView, rows)
    {
      currentView := if currentView == TableMode then GalleryMode else TableMode;
      clicks := clicks + 1;
      if currentView == TableMode {
        var table := RenderTableView(rows);
        screen := ShowsTable(table);
      } else {
        var gallery := RenderGalleryView(rows);
        screen := ShowsGallery(gallery);
      }
    }
  }

  /** Two clicks bring the table back, and the gallery in between. */
  method ToggleTwice(data: seq<Page>) returns (first: Screen, second: Screen)
    requires RowsReadable(data)
    ensures first == ShowsGallery(GalleryOf(data))
    ensures second == ShowsTable(TableOf(data))
  {
    var viewer := new DataViewer(data);
    viewer.Toggle();
    first := viewer.screen;
    viewer.Toggle();
    second := viewer.screen;
  }
}
