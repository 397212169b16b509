/** The table layout of psi.table.js: the column tree and header rows derived
    from the shape of a value, the per-emitter cache of that definition, the
    cells one value fills in, and how a cell value is presented. */
module PsiTable {
  import opened Wrappers
  import opened Text
  import opened Json

  /** A node of the column tree: `key` is the member it reads (`None` at the
      root), `width` the number of leaf columns it spans, `heading` its `label`
      (`None` when undefined); only a composite column has `children`. */
  datatype Column = Column(key: Option<string>, width: int, heading: Option<JSON>, composite: bool, children: seq<Column>)

  /** What `generateTableDefinition` returns. */
  datatype TableDefinition = TableDefinition(colsByDepth: seq<seq<Column>>, parseTree: Column)

  /** The attributes of a value response the table reads; `None` is unset. */
  datatype ValueResponse = ValueResponse(value: Option<JSON>, valueList: Option<JSON>, heading: Option<JSON>)

  // ---- the column tree -------------------------------------------------------------------------

  /** The widths added up left to right, as the loop accumulates them. */
  function SumWidths(cols: seq<Column>): int
  {
    if cols == [] then 0 else SumWidths(cols[..|cols| - 1]) + cols[|cols| - 1].width
  }

  lemma SumWidthsSnoc(cols: seq<Column>, c: Column)
    ensures SumWidths(cols + [c]) == SumWidths(cols) + c.width
  {
    assert (cols + [c])[..|cols|] == cols;
  }

  /** Every leaf spans one column and every composite spans its children. */
  predicate Spans(c: Column)
    decreases c
  {
    if c.composite then c.width == SumWidths(c.children) && forall j | 0 <= j < |c.children| :: Spans(c.children[j])
    else c.width == 1 && c.children == []
  }

  /** The heading of the `i`-th member: array elements are numbered from 1,
      object members have a `null` heading and show their key. */
  function ChildLabel(parent: JSON, i: nat): Option<JSON>
  {
    if parent.Arr? then Some(Num(i + 1)) else Some(Null)
  }

  /** `colsByDepth[d]`, empty past the end. */
  function RowOf(rows: seq<seq<Column>>, d: nat): seq<Column>
  {
    if d < |rows| then rows[d] else []
  }

  /** `if (colsByDepth.length < depth + 1) colsByDepth.push([])`. */
  function Grow(rows: seq<seq<Column>>, depth: int): (r: seq<seq<Column>>)
    ensures |r| >= |rows|
    ensures |rows| >= depth ==> |r| >= depth + 1
    ensures forall d :: 0 <= d < |r| ==> r[d] == RowOf(rows, d)
  {
    if |rows| < depth + 1 then rows + [[]] else rows
  }

  /** `colsByDepth[d].push(c)`. */
  function AppendAt(rows: seq<seq<Column>>, d: nat, c: Column): (r: seq<seq<Column>>)
    requires d < |rows|
    ensures |r| == |rows| && r[d] == rows[d] + [c]
    ensures forall e :: 0 <= e < |rows| && e != d ==> r[e] == rows[e]
  {
    rows[d := rows[d] + [c]]
  }

  lemma EntrySmaller(v: JSON, i: nat)
    requires (v.Obj? || v.Arr?) && i < |Entries(v)|
    ensures Entries(v)[i].1 < v
  {
    if v.Obj? {
      assert v.fields[i] in v.fields;
    } else {
      assert v.items[i] in v.items;
    }
  }

  /** `_makeColumnTree(value, depth, colsByDepth, key, label)`: the column of
      `value` and the header rows after it has been laid out. A composite
      spans the sum of its children's widths; every column at a depth of 0
      or more is appended to the row of its depth, a composite after its
      children; an atomic value at the root becomes the leaf "value" in the
      top row. */
  function Tree(value: JSON, depth: int, rows: seq<seq<Column>>, key: Option<string>, heading: Option<JSON>)
    : (r: (Column, seq<seq<Column>>))
    requires -1 <= depth <= |rows| && 1 <= |rows|
    ensures |r.1| >= |rows| && |r.1| >= depth + 1
    decreases value, 1
  {
    var rows1 := Grow(rows, depth);
    if value.Obj? || value.Arr? then
      var t := TreeChildren(value, depth, rows1, 0, []);
      var def := Column(key, SumWidths(t.0), heading, true, t.0);
      (def, if depth >= 0 then AppendAt(t.1, depth, def) else t.1)
    else if depth == -1 then
      var def := Column(key, 1, Some(Str("value")), false, []);
      (def, AppendAt(rows1, 0, def))
    else
      var def := Column(key, 1, heading, false, []);
      (def, AppendAt(rows1, depth, def))
  }

  /** The `for (var i in value)` loop of `_makeColumnTree` from the `i`-th
      member on, with the columns made so far in `acc`. */
  function TreeChildren(parent: JSON, depth: int, rows: seq<seq<Column>>, i: nat, acc: seq<Column>)
    : (r: (seq<Column>, seq<seq<Column>>))
    requires parent.Obj? || parent.Arr?
    requires -1 <= depth && depth + 1 <= |rows| && 1 <= |rows| && i <= |Entries(parent)|
    ensures |r.1| >= |rows|
    decreases parent, 0, |Entries(parent)| - i
  {
    var es := Entries(parent);
    if i == |es| then (acc, rows)
    else
      EntrySmaller(parent, i);
      var t := Tree(es[i].1, depth + 1, rows, Some(es[i].0), ChildLabel(parent, i));
      TreeChildren(parent, depth, t.1, i + 1, acc + [t.0])
  }

  /** One turn of the member loop: lay out member `i`, then go on. */
  lemma ChildrenStep(parent: JSON, depth: int, rows: seq<seq<Column>>, i: nat, acc: seq<Column>)
    requires parent.Obj? || parent.Arr?
    requires -1 <= depth && depth + 1 <= |rows| && 1 <= |rows| && i < |Entries(parent)|
    ensures var e := Entries(parent)[i];
            var t := Tree(e.1, depth + 1, rows, Some(e.0), ChildLabel(parent, i));
            TreeChildren(parent, depth, rows, i, acc) == TreeChildren(parent, depth, t.1, i + 1, acc + [t.0])
  {
    EntrySmaller(parent, i);
  }

  /** Past the last member the loop has nothing left to lay out. */
  lemma ChildrenDone(parent: JSON, depth: int, rows: seq<seq<Column>>, acc: seq<Column>)
    requires parent.Obj? || parent.Arr?
    requires -1 <= depth && depth + 1 <= |rows| && 1 <= |rows|
    ensures TreeChildren(parent, depth, rows, |Entries(parent)|, acc) == (acc, rows)
  {
  }

  /** The loop's bookkeeping after laying out member `i` as `col`. */
  lemma ChildrenAdvance(parent: JSON, depth: int, rows: seq<seq<Column>>, i: nat, acc: seq<Column>,
                        col: Column, rows': seq<seq<Column>>)
    requires parent.Obj? || parent.Arr?
    requires -1 <= depth && depth + 1 <= |rows| && 1 <= |rows| && i < |Entries(parent)|
    requires var e := Entries(parent)[i];
             (col, rows') == Tree(e.1, depth + 1, rows, Some(e.0), ChildLabel(parent, i))
    ensures depth + 1 <= |rows'| && 1 <= |rows'|
    ensures TreeChildren(parent, depth, rows', i + 1, acc + [col]) == TreeChildren(parent, depth, rows, i, acc)
  {
    ChildrenStep(parent, depth, rows, i, acc);
  }

  /** The heading of the instance column: the response's `label`, else "Instance". */
  function InstanceHeader(resp: ValueResponse): Column
  {
    Column(None, 1, Some(if Defined(resp.heading) then resp.heading.value else Str("Instance")), false, [])
  }

  /** `value.get('value') || value.get('valueList')[0]`; an `undefined` first
      element lays out like any atomic value. */
  function FirstValue(resp: ValueResponse): (r: Result<JSON, Exception>)
    ensures r.Failure? <==> !OptTruthy(resp.value) && !Defined(resp.valueList)
  {
    if resp.value.Some? && Truthy(resp.value.value) then Success(resp.value.value)
    else if !Defined(resp.valueList) then Failure(TypeError)
    else
      var first := Member(resp.valueList.value, "0");
      Success(if first.Some? then first.value else Null)
  }

  /** The definition `generateTableDefinition(value)` builds. */
  function TableDefinitionOf(resp: ValueResponse): (r: Result<TableDefinition, Exception>)
    ensures r.Success? ==>
              |r.value.colsByDepth| >= 1 && |r.value.colsByDepth[0]| >= 1
              && r.value.colsByDepth[0][0] == InstanceHeader(resp)
    ensures r.Success? ==> Spans(r.value.parseTree)
  {
    var first :- FirstValue(resp);
    var t := Tree(first, -1, [[InstanceHeader(resp)]], None, None);
    TopRowKept(first, [[InstanceHeader(resp)]]);
    TreeSpans(first, -1, [[InstanceHeader(resp)]], None, None);
    Success(TableDefinition(t.1, t.0))
  }

  /** Laying out the tree from the root only appends to the top row. */
  lemma TopRowKept(value: JSON, rows: seq<seq<Column>>)
    requires |rows| == 1
    ensures var t := Tree(value, -1, rows, None, None);
            |t.1[0]| >= |rows[0]| && t.1[0][..|rows[0]|] == rows[0]
  {
    var t := Tree(value, -1, rows, None, None);
    if value.Obj? || value.Arr? {
      ChildrenKeepRows(value, -1, rows, 0, [], 0);
    } else {
      assert t.1[0] == rows[0] + [t.0];
    }
  }

  /** The columns below depth `depth` never touch the rows at depth `depth`
      or above. */
  lemma {:induction false} ChildrenKeepRows(parent: JSON, depth: int, rows: seq<seq<Column>>, i: nat, acc: seq<Column>, d: nat)
    requires parent.Obj? || parent.Arr?
    requires -1 <= depth && depth + 1 <= |rows| && 1 <= |rows| && i <= |Entries(parent)|
    requires d <= depth + 1 && d < |rows|
    ensures d < |TreeChildren(parent, depth, rows, i, acc).1| && rows[d] <= TreeChildren(parent, depth, rows, i, acc).1[d]
    decreases parent, 0, |Entries(parent)| - i
  {
    var es := Entries(parent);
    if i < |es| {
      EntrySmaller(parent, i);
      ChildrenStep(parent, depth, rows, i, acc);
      var t := Tree(es[i].1, depth + 1, rows, Some(es[i].0), ChildLabel(parent, i));
      TreeKeepsRows(es[i].1, depth + 1, rows, Some(es[i].0), ChildLabel(parent, i), d);
      ChildrenKeepRows(parent, depth, t.1, i + 1, acc + [t.0], d);
      PrefixTrans(rows[d], t.1[d], TreeChildren(parent, depth, t.1, i + 1, acc + [t.0]).1[d]);
    }
  }

  lemma {:induction false} TreeKeepsRows(value: JSON, depth: int, rows: seq<seq<Column>>, key: Option<string>, heading: Option<JSON>, d: nat)
    requires -1 <= depth <= |rows| && 1 <= |rows|
    requires d <= depth && d < |rows|
    ensures d < |Tree(value, depth, rows, key, heading).1| && rows[d] <= Tree(value, depth, rows, key, heading).1[d]
    decreases value, 1
  {
    var rows1 := Grow(rows, depth);
    if value.Obj? || value.Arr? {
      ChildrenKeepRows(value, depth, rows1, 0, [], d);
    }
  }

  /** Every column laid out spans exactly the leaves below it. */
  lemma {:induction false} TreeSpans(value: JSON, depth: int, rows: seq<seq<Column>>, key: Option<string>, heading: Option<JSON>)
    requires -1 <= depth <= |rows| && 1 <= |rows|
    ensures Spans(Tree(value, depth, rows, key, heading).0)
    decreases value, 1
  {
    if value.Obj? || value.Arr? {
      ChildrenSpan(value, depth, Grow(rows, depth), 0, []);
    }
  }

  lemma {:induction false} ChildrenSpan(parent: JSON, depth: int, rows: seq<seq<Column>>, i: nat, acc: seq<Column>)
    requires parent.Obj? || parent.Arr?
    requires -1 <= depth && depth + 1 <= |rows| && 1 <= |rows| && i <= |Entries(parent)|
    requires forall j | 0 <= j < |acc| :: Spans(acc[j])
    ensures forall j | 0 <= j < |TreeChildren(parent, depth, rows, i, acc).0| :: Spans(TreeChildren(parent, depth, rows, i, acc).0[j])
    decreases parent, 0, |Entries(parent)| - i
  {
    var es := Entries(parent);
    if i < |es| {
      EntrySmaller(parent, i);
      ChildrenStep(parent, depth, rows, i, acc);
      var t := Tree(es[i].1, depth + 1, rows, Some(es[i].0), ChildLabel(parent, i));
      TreeSpans(es[i].1, depth + 1, rows, Some(es[i].0), ChildLabel(parent, i));
      ChildrenSpan(parent, depth, t.1, i + 1, acc + [t.0]);
    }
  }

  /** The columns of the subtree under `c`, whose depth is `cd`, that belong
      in the header row of depth `d`: the children's first, left to right,
      then `c` itself when it sits at that depth. */
  function ColumnsAt(c: Column, cd: int, d: int): seq<Column>
    decreases c
  {
    (if c.composite then ColumnsAtAll(c.children, cd + 1, d) else []) + (if cd == d then [c] else [])
  }

  /** `ColumnsAt` of sibling columns, left to right. */
  function ColumnsAtAll(cols: seq<Column>, cd: int, d: int): seq<Column>
    decreases cols
  {
    if cols == [] then [] else ColumnsAt(cols[0], cd, d) + ColumnsAtAll(cols[1..], cd, d)
  }

  /** Laying out a value appends every column of its subtree to the header
      row of that column's depth, in the order the recursion meets them, a
      composite after its children; rows past the end read as empty. The
      only exception is an atomic value at the root, which
      `TableDefinitionRows` covers. */
  lemma {:induction false} TreeRows(value: JSON, depth: int, rows: seq<seq<Column>>, key: Option<string>, heading: Option<JSON>, d: nat)
    requires -1 <= depth <= |rows| && 1 <= |rows|
    requires value.Obj? || value.Arr? || depth >= 0
    ensures RowOf(Tree(value, depth, rows, key, heading).1, d)
         == RowOf(rows, d) + ColumnsAt(Tree(value, depth, rows, key, heading).0, depth, d)
    decreases value, 1
  {
    var rows1 := Grow(rows, depth);
    assert RowOf(rows1, d) == RowOf(rows, d);
    var r := Tree(value, depth, rows, key, heading);
    if value.Obj? || value.Arr? {
      var t := TreeChildren(value, depth, rows1, 0, []);
      ChildrenRows(value, depth, rows1, 0, [], d);
      assert t.0[0..] == t.0;
      if depth >= 0 && d == depth {
        AppendAssoc(RowOf(rows, d), ColumnsAtAll(t.0, depth + 1, d), [r.0]);
      }
    }
  }

  /** The member loop appends the columns of each child's subtree, child by
      child, to the rows of their depths. */
  lemma {:induction false} ChildrenRows(parent: JSON, depth: int, rows: seq<seq<Column>>, i: nat, acc: seq<Column>, d: nat)
    requires parent.Obj? || parent.Arr?
    requires -1 <= depth && depth + 1 <= |rows| && 1 <= |rows| && i <= |Entries(parent)|
    ensures acc <= TreeChildren(parent, depth, rows, i, acc).0
    ensures RowOf(TreeChildren(parent, depth, rows, i, acc).1, d)
         == RowOf(rows, d) + ColumnsAtAll(TreeChildren(parent, depth, rows, i, acc).0[|acc|..], depth + 1, d)
    decreases parent, 0, |Entries(parent)| - i
  {
    var es := Entries(parent);
    if i == |es| {
      assert TreeChildren(parent, depth, rows, i, acc).0[|acc|..] == [];
    } else {
      EntrySmaller(parent, i);
      ChildrenStep(parent, depth, rows, i, acc);
      var t := Tree(es[i].1, depth + 1, rows, Some(es[i].0), ChildLabel(parent, i));
      TreeRows(es[i].1, depth + 1, rows, Some(es[i].0), ChildLabel(parent, i), d);
      ChildrenRows(parent, depth, t.1, i + 1, acc + [t.0], d);
      var kids := TreeChildren(parent, depth, t.1, i + 1, acc + [t.0]).0;
      assert kids[|acc|] == (acc + [t.0])[|acc|];
      var rest := kids[|acc|..];
      assert rest[0] == t.0 && rest[1..] == kids[|acc| + 1..];
      AppendAssoc(RowOf(rows, d), ColumnsAt(t.0, depth + 1, d), ColumnsAtAll(kids[|acc| + 1..], depth + 1, d));
    }
  }

  /** The header rows of a table definition: the instance header heads the
      top row, and every column of the parse tree sits in the row of its
      depth; an atomic value at the root is the one leaf of the top row. */
  lemma TableDefinitionRows(resp: ValueResponse, d: nat)
    requires TableDefinitionOf(resp).Success?
    ensures var def := TableDefinitionOf(resp).value;
            RowOf(def.colsByDepth, d)
            == (if d == 0 then [InstanceHeader(resp)] else [])
               + (if def.parseTree.composite then ColumnsAt(def.parseTree, -1, d)
                  else if d == 0 then [def.parseTree] else [])
  {
    var first := FirstValue(resp).value;
    var rows := [[InstanceHeader(resp)]];
    if first.Obj? || first.Arr? {
      TreeRows(first, -1, rows, None, None, d);
    }
  }

  lemma PrefixTrans(a: seq<Column>, b: seq<Column>, c: seq<Column>)
    requires a <= b && b <= c
    ensures a <= c
  {
    assert c[..|a|] == c[..|b|][..|a|];
  }

  /** `generateTableDefinition(value)`. */
  method GenerateTableDefinition(resp: ValueResponse) returns (r: Result<TableDefinition, Exception>)
    ensures r == TableDefinitionOf(resp)
  {
    var first := FirstValue(resp);
    if first.Failure? {
      return Failure(first.error);
    }
    var layout := new TableLayout([[InstanceHeader(resp)]]);
    var tree := layout.MakeColumnTree(first.value, -1, None, None);
    r := Success(TableDefinition(layout.colsByDepth, tree));
  }

  /** The `colsByDepth` header rows that `_makeColumnTree` appends to. */
  class TableLayout {
    var colsByDepth: seq<seq<Column>>

    constructor(rows: seq<seq<Column>>)
      ensures colsByDepth == rows
    {
      colsByDepth := rows;
    }

    /** `_makeColumnTree(value, depth, colsByDepth, key, label)`. */
    method MakeColumnTree(value: JSON, depth: int, key: Option<string>, heading: Option<JSON>) returns (def: Column)
      requires -1 <= depth <= |colsByDepth| && 1 <= |colsByDepth|
      modifies this
      ensures (def, colsByDepth) == Tree(value, depth, old(colsByDepth), key, heading)
      decreases value, 2
    {
      if |colsByDepth| < depth + 1 {
        colsByDepth := colsByDepth + [[]];
      }
      if value.Obj? || value.Arr? {
        var kids, width := MakeChildColumns(value, depth);
        def := Column(key, width, heading, true, kids);
        if depth >= 0 {
          colsByDepth := AppendAt(colsByDepth, depth, def);
        }
      } else if depth == -1 {
        def := Column(key, 1, Some(Str("value")), false, []);
        colsByDepth := AppendAt(colsByDepth, 0, def);
      } else {
        def := Column(key, 1, heading, false, []);
        colsByDepth := AppendAt(colsByDepth, depth, def);
      }
    }

    /** The `for (var i in value)` loop of `_makeColumnTree`: the children's
        columns, and the composite's width as their sum. */
    method MakeChildColumns(value: JSON, depth: int) returns (kids: seq<Column>, width: int)
      requires value.Obj? || value.Arr?
      requires -1 <= depth && depth + 1 <= |colsByDepth| && 1 <= |colsByDepth|
      modifies this
      ensures (kids, colsByDepth) == TreeChildren(value, depth, old(colsByDepth), 0, [])
      ensures width == SumWidths(kids)
      decreases value, 1
    {
      var es := Entries(value);
      ghost var target := TreeChildren(value, depth, colsByDepth, 0, []);
      kids := [];
      width := 0;
      var i := 0;
      while i < |es|
        invariant 0 <= i <= |es| && depth + 1 <= |colsByDepth| && 1 <= |colsByDepth|
        invariant TreeChildren(value, depth, colsByDepth, i, kids) == target
        invariant width == SumWidths(kids)
        decreases |es| - i
      {
        var col := MakeChildColumn(value, depth, i, kids);
        SumWidthsSnoc(kids, col);
        kids := kids + [col];
        width := width + col.width;
        i := i + 1;
      }
      ChildrenDone(value, depth, colsByDepth, kids);
    }

    /** One turn of that loop: the column of member `i`. */
    method MakeChildColumn(value: JSON, depth: int, i: nat, kids: seq<Column>) returns (col: Column)
      requires value.Obj? || value.Arr?
      requires -1 <= depth && depth + 1 <= |colsByDepth| && 1 <= |colsByDepth| && i < |Entries(value)|
      modifies this
      ensures depth + 1 <= |colsByDepth| && 1 <= |colsByDepth|
      ensures TreeChildren(value, depth, colsByDepth, i + 1, kids + [col])
           == TreeChildren(value, depth, old(colsByDepth), i, kids)
      decreases value, 0
    {
      var e := Entries(value)[i];
      EntrySmaller(value, i);
      ghost var rows := colsByDepth;
      col := MakeColumnTree(e.1, depth + 1, Some(e.0), ChildLabel(value, i));
      ChildrenAdvance(value, depth, rows, i, kids, col, colsByDepth);
    }
  }

  /** An emitter's model attributes as far as the table uses them: the cached
      table definition. */
  class Emitter {
    var tableDefinition: Option<TableDefinition>

    constructor()
      ensures tableDefinition == None
    {
      tableDefinition := None;
    }

    /** `getTableDefinition(emitter, value)`: the first successful call builds
        the definition from `value` and caches it; later calls return the
        cached one whatever value they are given. */
    method GetTableDefinition(resp: ValueResponse) returns (r: Result<TableDefinition, Exception>)
      modifies this
      ensures old(tableDefinition).Some? ==> r == Success(old(tableDefinition).value) && tableDefinition == old(tableDefinition)
      ensures old(tableDefinition).None? ==> r == TableDefinitionOf(resp)
      ensures old(tableDefinition).None? ==> tableDefinition == (if r.Success? then Some(r.value) else None)
    {
      if tableDefinition.None? {
        r := GenerateTableDefinition(resp);
        if r.Success? {
          tableDefinition := Some(r.value);
        }
      } else {
        r := Success(tableDefinition.value);
      }
    }
  }

  // ---- cells -----------------------------------------------------------------------------------

  /** The number of leaf columns under a column. */
  function LeafCount(c: Column): nat
    decreases c, 1
  {
    if c.composite then LeafCountOf(c, |c.children|) else 1
  }

  function LeafCountOf(c: Column, n: nat): nat
    requires n <= |c.children|
    decreases c, 0, n
  {
    if n == 0 then 0 else LeafCountOf(c, n - 1) + LeafCount(c.children[n - 1])
  }

  /** The member a child column reads; a missing key reads "undefined". */
  function KeyOf(c: Column): string
  {
    if c.key.Some? then c.key.value else "undefined"
  }

  /** The text a cell shows for a leaf value: `innerHTML` turns `null` into
      the empty string and `undefined` into "undefined". `_presentValue`
      tests its regular expressions on the text "null", which none of them
      matches, so a `null` leaf reaches the cell as `null`. */
  function CellText(value: Option<JSON>): (r: string)
    ensures value == Some(Null) ==> r == ""
    ensures value.None? ==> r == "undefined"
    ensures value.Some? && !value.value.Null? ==> r == ToText(value.value)
  {
    if value.None? then "undefined"
    else if value.value.Null? then ""
    else ToText(value.value)
  }

  /** The cells `_addValueToRow(value, row, parseTree)` appends, left to
      right: one presented value per leaf. Reading a member of `undefined`
      or `null` throws. */
  function RowCells(value: Option<JSON>, tree: Column, decode: string -> Option<string>): (r: Result<seq<string>, Exception>)
    ensures r.Success? ==> |r.value| == LeafCount(tree)
    decreases tree, 1
  {
    if tree.composite then ChildCells(value, tree, |tree.children|, decode)
    else
      var cell :- PresentValue(CellText(value), decode);
      Success([cell])
  }

  /** A `null` leaf shows as an empty cell and a missing member as "undefined". */
  lemma NullAndMissingLeaves(leaf: Column, decode: string -> Option<string>)
    requires !leaf.composite
    ensures RowCells(Some(Null), leaf, decode) == Success([""])
    ensures RowCells(None, leaf, decode) == Success(["undefined"])
  {
    assert !LooksEncoded("");
    var u := "undefined";
    assert !StartsWithIgnoringCase(u, "http%3A%2F%2F") by {
      assert LowerAscii(u[0]) != LowerAscii("http%3A%2F%2F"[0]);
    }
    forall j | 0 <= j <= |u|
      ensures !StartsWithIgnoringCase(u[j..], "data%3A")
    {
      if j + 7 <= |u| {
        assert LowerAscii(u[j..][4]) != LowerAscii("data%3A"[4]);
      }
    }
  }

  /** The cells of the first `n` children, as the `_.each` appends them. */
  function ChildCells(value: Option<JSON>, tree: Column, n: nat, decode: string -> Option<string>)
    : (r: Result<seq<string>, Exception>)
    requires n <= |tree.children|
    ensures r.Success? ==> |r.value| == LeafCountOf(tree, n)
    decreases tree, 0, n
  {
    if n == 0 then Success([])
    else
      var before :- ChildCells(value, tree, n - 1, decode);
      if !Defined(value) then Failure(TypeError)
      else
        var child := tree.children[n - 1];
        var cells :- RowCells(Member(value.value, KeyOf(child)), child, decode);
        Success(before + cells)
  }

  /** Once a child throws, the whole row throws. */
  lemma {:induction false} ChildCellsFailureSticks(value: Option<JSON>, tree: Column, k: nat, n: nat, decode: string -> Option<string>)
    requires k <= n <= |tree.children|
    requires ChildCells(value, tree, k, decode).Failure?
    ensures ChildCells(value, tree, n, decode).Failure?
    decreases n
  {
    if k < n {
      ChildCellsFailureSticks(value, tree, k, n - 1, decode);
    }
  }

  /** A child that throws, or a value whose members cannot be read, makes the
      whole row throw. */
  lemma ChildFails(value: Option<JSON>, tree: Column, n: nat, decode: string -> Option<string>)
    requires n < |tree.children|
    requires ChildCells(value, tree, n, decode).Success?
    requires !Defined(value) || RowCells(Member(value.value, KeyOf(tree.children[n])), tree.children[n], decode).Failure?
    ensures ChildCells(value, tree, |tree.children|, decode).Failure?
  {
    ChildCellsFailureSticks(value, tree, n + 1, |tree.children|, decode);
  }

  /** One more child appends that child's cells. */
  lemma ChildCellsStep(value: Option<JSON>, tree: Column, n: nat, decode: string -> Option<string>)
    requires n < |tree.children| && Defined(value)
    requires ChildCells(value, tree, n, decode).Success?
    requires RowCells(Member(value.value, KeyOf(tree.children[n])), tree.children[n], decode).Success?
    ensures ChildCells(value, tree, n + 1, decode)
            == Success(ChildCells(value, tree, n, decode).value
                       + RowCells(Member(value.value, KeyOf(tree.children[n])), tree.children[n], decode).value)
  {
  }

  lemma AppendAssoc<T>(a: seq<T>, b: seq<T>, c: seq<T>)
    ensures (a + b) + c == a + (b + c)
  {
  }

  /** A column that spans its leaves has exactly `width` leaves. */
  lemma {:induction false} LeafCountIsWidth(c: Column)
    requires Spans(c)
    ensures LeafCount(c) == c.width
    decreases c, 1
  {
    if c.composite {
      LeafCountOfIsWidth(c, |c.children|);
      assert c.children[..|c.children|] == c.children;
    }
  }

  lemma {:induction false} LeafCountOfIsWidth(c: Column, n: nat)
    requires Spans(c) && c.composite && n <= |c.children|
    ensures LeafCountOf(c, n) == SumWidths(c.children[..n])
    decreases c, 0, n
  {
    if n > 0 {
      LeafCountOfIsWidth(c, n - 1);
      LeafCountIsWidth(c.children[n - 1]);
      assert c.children[..n][..n - 1] == c.children[..n - 1];
    }
  }

  /** Every row `_addValueToRow` fills against a generated definition has one
      cell per leaf column, as many as the definition's root spans. */
  lemma RowMatchesDefinition(resp: ValueResponse, value: Option<JSON>, decode: string -> Option<string>)
    requires TableDefinitionOf(resp).Success?
    requires RowCells(value, TableDefinitionOf(resp).value.parseTree, decode).Success?
    ensures |RowCells(value, TableDefinitionOf(resp).value.parseTree, decode).value|
            == TableDefinitionOf(resp).value.parseTree.width
  {
    LeafCountIsWidth(TableDefinitionOf(resp).value.parseTree);
  }

  /** A table row being filled in. */
  class TableRow {
    var cells: seq<string>

    constructor()
      ensures cells == []
    {
      cells := [];
    }

    /** `_addValueToRow(value, row, parseTree)`: on success the row has gained
        exactly the cells of `value`. */
    method AddValueToRow(value: Option<JSON>, tree: Column, decode: string -> Option<string>) returns (r: Result<(), Exception>)
      modifies this
      ensures r.Success? <==> RowCells(value, tree, decode).Success?
      ensures r.Success? ==> cells == old(cells) + RowCells(value, tree, decode).value
      decreases tree, 1
    {
      if tree.composite {
        r := AddChildCells(value, tree, decode);
      } else {
        var cell := PresentValue(CellText(value), decode);
        if cell.Failure? {
          return Failure(cell.error);
        }
        cells := cells + [cell.value];
        r := Success(());
      }
    }

    /** The `_.each(parseTree.children, ...)` loop of `_addValueToRow`. */
    method AddChildCells(value: Option<JSON>, tree: Column, decode: string -> Option<string>) returns (r: Result<(), Exception>)
      modifies this
      ensures r.Success? <==> ChildCells(value, tree, |tree.children|, decode).Success?
      ensures r.Success? ==> cells == old(cells) + ChildCells(value, tree, |tree.children|, decode).value
      decreases tree, 0
    {
      var kids := tree.children;
      var i := 0;
      ghost var done: seq<string> := [];
      while i < |kids|
        invariant 0 <= i <= |kids|
        invariant ChildCells(value, tree, i, decode) == Success(done)
        invariant cells == old(cells) + done
        decreases |kids| - i
      {
        if !Defined(value) {
          ChildFails(value, tree, i, decode);
          return Failure(TypeError);
        }
        assert kids[i] in kids;
        ghost var mid := cells;
        var sub := AddValueToRow(Member(value.value, KeyOf(kids[i])), kids[i], decode);
        if sub.Failure? {
          ChildFails(value, tree, i, decode);
          return Failure(sub.error);
        }
        ghost var mine := RowCells(Member(value.value, KeyOf(kids[i])), kids[i], decode).value;
        AppendAssoc(old(cells), done, mine);
        ChildCellsStep(value, tree, i, decode);
        done := done + mine;
        i := i + 1;
      }
      r := Success(());
    }
  }

  // ---- presenting a value ----------------------------------------------------------------------

  /** `/^http%3A%2F%2F|data%3A/i`: the alternation binds loosest, so an
      encoded "data:" anywhere in the text counts. */
  predicate LooksEncoded(text: string)
  {
    StartsWithIgnoringCase(text, "http%3A%2F%2F") || ContainsIgnoringCase(text, "data%3A")
  }

  function Anchor(uri: string): string
  {
    "<a href=\"" + uri + "\" target=\"_blank\">" + uri + "</a>"
  }

  function Image(uri: string): string
  {
    "<img src=\"" + uri + "\">"
  }

  /** `_presentValue(value)` on the text of the value; `decode` is
      `decodeURIComponent`, `None` for a malformed escape (a URIError). */
  function PresentValue(text: string, decode: string -> Option<string>): (r: Result<string, Exception>)
    ensures !LooksEncoded(text) && !StartsWith(text, "http://") && !StartsWith(text, "data:image/") ==>
              r == Success(text)
    ensures !LooksEncoded(text) && StartsWith(text, "http://") ==> r == Success(Anchor(text))
    ensures !LooksEncoded(text) && !StartsWith(text, "http://") && StartsWith(text, "data:image/") ==>
              r == Success(Image(text))
    ensures LooksEncoded(text) ==> (r.Failure? <==> decode(text).None?)
    ensures LooksEncoded(text) && decode(text).Some? ==> r == Success(Shown(decode(text).value))
  {
    var v :- if LooksEncoded(text) then
               (if decode(text).Some? then Success(decode(text).value) else Failure(URIError))
             else Success(text);
    Success(Shown(v))
  }

  /** A link as an anchor, an image data URI as an image, anything else as is. */
  function Shown(v: string): string
  {
    if StartsWith(v, "http://") then Anchor(v)
    else if StartsWith(v, "data:image/") then Image(v)
    else v
  }
}
