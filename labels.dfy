/** The QR label sheets printed from the add-stock and manage pages: how
    many labels an item gets, where label number `i` sits on the 3 × 5 grid
    of an A4 page, when a new page starts, and how a long item name is
    shortened. The drawing itself is left to the PDF library. */
module Labels {
  import opened Base

  const LabelsPerRow: int := 3
  const LabelsPerCol: int := 5
  const LabelsPerPage: int := 15
  const LabelWidth: int := 60
  const LabelHeight: int := 60
  const StartX: int := 15
  const StartY: int := 15
  /** Names longer than this are cut and given an ellipsis. */
  const NameLimit: int := 15

  /** Grid cell, page and top-left corner of one label; `newPage` tells
      whether a page was added before drawing it. */
  datatype Placement = Placement(page: int, col: int, row: int, x: int, y: int, newPage: bool)

  /** `p` is where label number `k` belongs: a cell of the grid, counted
      row by row and page by page, its corner 60 units apart from the
      neighbouring cells, and a page break before every fifteenth label
      except the first. */
  predicate PlacedAt(p: Placement, k: int)
  {
    && 0 <= p.col < LabelsPerRow && 0 <= p.row < LabelsPerCol && 0 <= p.page
    && p.page * LabelsPerPage + p.row * LabelsPerRow + p.col == k
    && p.x == StartX + p.col * LabelWidth && p.y == StartY + p.row * LabelHeight
    && (p.newPage <==> k > 0 && k % LabelsPerPage == 0)
  }

  /** The cell of a label is determined by its number: page `k / 15`, row
      `(k % 15) / 3`, column `(k % 15) % 3`. */
  lemma PlacedAtDetermined(p: Placement, k: int)
    requires PlacedAt(p, k)
    ensures p.page == k / LabelsPerPage
    ensures p.row == (k % LabelsPerPage) / LabelsPerRow
    ensures p.col == (k % LabelsPerPage) % LabelsPerRow
  {
    var inPage := p.row * LabelsPerRow + p.col;
    assert 0 <= inPage < LabelsPerPage;
    assert k == p.page * LabelsPerPage + inPage;
  }

  /** Two different labels never share a spot on the same page. */
  lemma PlacementsDisjoint(p: Placement, q: Placement, k: int, j: int)
    requires PlacedAt(p, k) && PlacedAt(q, j) && k != j
    ensures p.page != q.page || p.x != q.x || p.y != q.y
  {
  }

  /** The label loop: one placement per label, in order, and the number of
      pages the document ends with (a new document starts with one page). */
  method LayOut(count: int) returns (placements: seq<Placement>, pages: int)
    ensures |placements| == if count > 0 then count else 0
    ensures forall k :: 0 <= k < |placements| ==> PlacedAt(placements[k], k)
    ensures pages == if count > 0 then CeilDiv(count, LabelsPerPage) else 1
  {
    placements := [];
    pages := 1;
    var i := 0;
    while i < count
      invariant 0 <= i && (count > 0 ==> i <= count) && (count <= 0 ==> i == 0)
      invariant |placements| == i
      invariant forall k :: 0 <= k < i ==> PlacedAt(placements[k], k)
      invariant pages == if i > 0 then (i - 1) / LabelsPerPage + 1 else 1
    {
      var pageIndex := i / LabelsPerPage;
      var posInPage := i % LabelsPerPage;
      var col := posInPage % LabelsPerRow;
      var row := posInPage / LabelsPerRow;
      var newPage := i > 0 && posInPage == 0;
      if newPage {
        pages := pages + 1;
      }
      placements := placements + [Placement(pageIndex, col, row, StartX + col * LabelWidth, StartY + row * LabelHeight, newPage)];
      i := i + 1;
    }
    if count > 0 {
      PagesNeeded(count);
    }
  }

  lemma PagesNeeded(n: int)
    requires n > 0
    ensures (n - 1) / LabelsPerPage + 1 == CeilDiv(n, LabelsPerPage)
  {
  }

  /** Labels for an item: one per pack for a pack item (`pieces_per_box > 1`),
      enough packs to cover the stock, else one per piece. */
  function LabelCount(quantity: int, piecesPerBox: int): (r: int)
    ensures piecesPerBox > 1 ==> (r - 1) * piecesPerBox < quantity <= r * piecesPerBox
    ensures piecesPerBox <= 1 ==> r == quantity
  {
    if piecesPerBox > 1 then CeilDiv(quantity, OrDefault(piecesPerBox, 1)) else quantity
  }

  /** Stock that is a whole number of packs gets exactly one label per pack. */
  lemma LabelCountWholePacks(boxes: int, piecesPerBox: int)
    requires piecesPerBox > 1
    ensures LabelCount(boxes * piecesPerBox, piecesPerBox) == boxes
  {
    var r := LabelCount(boxes * piecesPerBox, piecesPerBox);
    assert (r - 1) * piecesPerBox < boxes * piecesPerBox <= r * piecesPerBox;
    assert (r - 1 - boxes) * piecesPerBox < 0;
    assert (r - boxes) * piecesPerBox >= 0;
    NegativeFactor(r - 1 - boxes, piecesPerBox);
    NonNegativeFactor(r - boxes, piecesPerBox);
  }

  lemma NegativeFactor(a: int, b: int)
    requires b > 0 && a * b < 0
    ensures a < 0
  {
  }

  lemma NonNegativeFactor(a: int, b: int)
    requires b > 0 && a * b >= 0
    ensures a >= 0
  {
  }

  /** One downloaded sheet: code, selling price, "Pack of n" line,
      shortened name, and the position of every label. */
  datatype LabelSheet = LabelSheet(
    itemCode: string,
    price: real,
    packOf: Option<int>,
    name: string,
    placements: seq<Placement>,
    pages: int)

  /** The name printed on a label: the first 15 characters and "..." when
      the name is longer, the name itself otherwise. */
  function LabelName(name: string): (r: string)
    ensures |name| <= NameLimit ==> r == name
    ensures |name| > NameLimit ==> |r| == NameLimit + 3 && r[..NameLimit] == name[..NameLimit] && r[NameLimit..] == "..."
    ensures |r| <= NameLimit + 3
  {
    if |name| > NameLimit then name[..NameLimit] + "..." else name
  }

  /** Shortening an already shortened name changes nothing. */
  lemma LabelNameIdempotent(name: string)
    ensures LabelName(LabelName(name)) == LabelName(name)
  {
    var r := LabelName(name);
    if |name| > NameLimit {
      assert r[..NameLimit] + "..." == r;
    }
  }
}
