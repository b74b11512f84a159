/** The generic admin table card (src/components/common/AdminCardLarge.tsx):
    it derives its columns from the rows' keys, labels each column from its
    camelCase key, and fills every cell with the row's value or a fallback. */
module AdminCardLarge {
  import opened Wrappers
  import opened Strings

  /** A cell value, `string | number | ReactNode`, or a key the row lacks. */
  datatype Value = Text(s: string) | Number(x: real) | Flag(b: bool) | Element | Null | Undefined

  /** A row as `Object.keys` enumerates it: each key once, in that order. */
  type Row = seq<(string, Value)>

  // ---------------------------------------------------------------------
  // Column keys

  function RowKeys(row: Row): seq<string> {
    seq(|row|, i requires 0 <= i < |row| => row[i].0)
  }

  /** `data.flatMap(item => Object.keys(item))`. */
  function FlatKeys(data: seq<Row>): (r: seq<string>)
    ensures forall i, j :: 0 <= i < |data| && 0 <= j < |data[i]| ==> data[i][j].0 in r
  {
    if data == [] then []
    else
      var init := data[..|data| - 1];
      var last := data[|data| - 1];
      assert forall i :: 0 <= i < |init| ==> init[i] == data[i];
      var r := FlatKeys(init) + RowKeys(last);
      assert forall j :: 0 <= j < |last| ==> RowKeys(last)[j] == last[j].0;
      r
  }

  /** Every flattened key is the key of some row's entry. */
  lemma {:induction false} FlatKeysFromRows(data: seq<Row>)
    ensures forall x :: x in FlatKeys(data) ==>
      exists i, j :: 0 <= i < |data| && 0 <= j < |data[i]| && data[i][j].0 == x
  {
    if data != [] {
      var init := data[..|data| - 1];
      var last := data[|data| - 1];
      FlatKeysFromRows(init);
      assert FlatKeys(data) == FlatKeys(init) + RowKeys(last);
      forall x | x in FlatKeys(data)
        ensures exists i, j :: 0 <= i < |data| && 0 <= j < |data[i]| && data[i][j].0 == x
      {
        if x in FlatKeys(init) {
          var i, j :| 0 <= i < |init| && 0 <= j < |init[i]| && init[i][j].0 == x;
          assert data[i] == init[i];
        } else {
          var j :| 0 <= j < |last| && RowKeys(last)[j] == x;
          assert data[|data| - 1][j].0 == x;
        }
      }
    }
  }

  predicate NoDuplicates<T(==)>(s: seq<T>) {
    forall i, j :: 0 <= i < j < |s| ==> s[i] != s[j]
  }

  /** `Array.from(new Set(s))`: the first occurrence of each element, in order. */
  function Dedup(s: seq<string>): (r: seq<string>)
    ensures NoDuplicates(r)
    ensures forall x :: x in r <==> x in s
  {
    if s == [] then []
    else
      var init := s[..|s| - 1];
      var x := s[|s| - 1];
      assert s == init + [x];
      if x in init then Dedup(init) else Dedup(init) + [x]
  }

  /** The first position of `x` in `s`. */
  function FirstIndex<T(==)>(s: seq<T>, x: T): (k: nat)
    requires x in s
    ensures k < |s| && s[k] == x
    ensures forall j :: 0 <= j < k ==> s[j] != x
  {
    if s[0] == x then 0 else 1 + FirstIndex(s[1..], x)
  }

  lemma FirstIndexUnique<T>(s: seq<T>, x: T, k: nat)
    requires k < |s| && s[k] == x
    requires forall j :: 0 <= j < k ==> s[j] != x
    ensures FirstIndex(s, x) == k
  {
    var f := FirstIndex(s, x);
    assert !(f < k) && !(k < f);
  }

  /** Appending an element moves no first occurrence of an earlier one; a
      new element's first occurrence is the end. */
  lemma FirstIndexSnoc<T>(s: seq<T>, x: T, y: T)
    requires y in s + [x]
    ensures y in s ==> FirstIndex(s + [x], y) == FirstIndex(s, y)
    ensures y !in s ==> FirstIndex(s + [x], y) == |s|
  {
    if y in s {
      FirstIndexUnique(s + [x], y, FirstIndex(s, y));
    } else {
      FirstIndexUnique(s + [x], y, |s|);
    }
  }

  /** The set keeps elements in order of their first appearance. */
  lemma {:induction false} DedupFirstAppearance(s: seq<string>)
    ensures forall i, j :: 0 <= i < j < |Dedup(s)| ==> FirstIndex(s, Dedup(s)[i]) < FirstIndex(s, Dedup(s)[j])
  {
    if s != [] {
      var init := s[..|s| - 1];
      var x := s[|s| - 1];
      assert s == init + [x];
      DedupFirstAppearance(init);
      var d := Dedup(init);
      var r := Dedup(s);
      forall i, j | 0 <= i < j < |r|
        ensures FirstIndex(s, r[i]) < FirstIndex(s, r[j])
      {
        assert r[i] in d;
        FirstIndexSnoc(init, x, r[i]);
        FirstIndexSnoc(init, x, r[j]);
        if j < |d| {
          assert r[i] == d[i] && r[j] == d[j];
        } else {
          assert r[i] == d[i];
        }
      }
    }
  }

  /** `keys`. */
  function ColumnKeys(data: seq<Row>): seq<string> {
    Dedup(FlatKeys(data))
  }

  /** The columns name every key of every row, each exactly once, in order of
      first appearance in the flattened key list. */
  lemma ColumnKeysProperties(data: seq<Row>)
    ensures var keys := ColumnKeys(data);
      && NoDuplicates(keys)
      && (forall i, j :: 0 <= i < |data| && 0 <= j < |data[i]| ==> data[i][j].0 in keys)
      && (forall x :: x in keys ==> exists i, j :: 0 <= i < |data| && 0 <= j < |data[i]| && data[i][j].0 == x)
      && (forall a, b :: 0 <= a < b < |keys| ==>
            FirstIndex(FlatKeys(data), keys[a]) < FirstIndex(FlatKeys(data), keys[b]))
  {
    FlatKeysFromRows(data);
    DedupFirstAppearance(FlatKeys(data));
  }

  // ---------------------------------------------------------------------
  // Header labels

  predicate IsUpper(c: char) {
    'A' <= c <= 'Z'
  }

  /** The characters `String.prototype.trim` removes: white space and line
      terminators. */
  predicate IsSpace(c: char) {
    || c == '\t' || c == '\n' || c == '\U{000B}' || c == '\U{000C}' || c == '\r' || c == ' '
    || c == '\U{00A0}' || c == '\U{1680}' || ('\U{2000}' <= c <= '\U{200A}')
    || c == '\U{2028}' || c == '\U{2029}' || c == '\U{202F}' || c == '\U{205F}' || c == '\U{3000}'
    || c == '\U{FEFF}'
  }

  /** `replace(/([A-Z])/g, ' $1')`. */
  function SpaceUpper(s: string): (r: string)
    ensures forall i :: 0 <= i < |r| && IsUpper(r[i]) ==> i > 0 && r[i - 1] == ' '
  {
    if s == [] then []
    else
      var rest := SpaceUpper(s[1..]);
      var head := if IsUpper(s[0]) then [' ', s[0]] else [s[0]];
      assert forall i :: 0 <= i < |rest| ==> (head + rest)[|head| + i] == rest[i];
      head + rest
  }

  function LeadingSpaces(s: string): (k: nat)
    ensures k <= |s|
    ensures forall i :: 0 <= i < k ==> IsSpace(s[i])
    ensures k < |s| ==> !IsSpace(s[k])
  {
    if s != [] && IsSpace(s[0]) then 1 + LeadingSpaces(s[1..]) else 0
  }

  function TrailingSpaces(s: string): (k: nat)
    ensures k <= |s|
    ensures forall i :: |s| - k <= i < |s| ==> IsSpace(s[i])
    ensures k < |s| ==> !IsSpace(s[|s| - 1 - k])
  {
    if s != [] && IsSpace(s[|s| - 1]) then 1 + TrailingSpaces(s[..|s| - 1]) else 0
  }

  /** `trim()`: the result neither starts nor ends with white space, and
      only white space was cut from either end. */
  function Trim(s: string): (r: string)
    ensures r != [] ==> !IsSpace(r[0]) && !IsSpace(r[|r| - 1])
    ensures exists a, b :: 0 <= a <= b <= |s| && r == s[a..b]
              && (forall i :: 0 <= i < a ==> IsSpace(s[i])) && (forall i :: b <= i < |s| ==> IsSpace(s[i]))
  {
    var a := LeadingSpaces(s);
    if a == |s| then
      assert s[a..a] == [];
      []
    else
      var t := TrailingSpaces(s);
      assert !IsSpace(s[a]);
      s[a..|s| - t]
  }

  /** The column header for a key. */
  function Label(key: string): string {
    Trim(SpaceUpper(key))
  }

  lemma {:induction false} SpaceUpperNoUpper(s: string)
    requires forall i :: 0 <= i < |s| ==> !IsUpper(s[i])
    ensures SpaceUpper(s) == s
  {
    if s != [] {
      SpaceUpperNoUpper(s[1..]);
    }
  }

  /** Each character is rewritten on its own: an uppercase letter becomes
      a space and the letter, anything else stays. */
  lemma SpaceUpperSingle(c: char)
    ensures SpaceUpper([c]) == if IsUpper(c) then [' ', c] else [c]
  {
    assert [c][1..] == [];
  }

  /** The rewriting distributes over concatenation. */
  lemma {:induction false} SpaceUpperConcat(x: string, y: string)
    ensures SpaceUpper(x + y) == SpaceUpper(x) + SpaceUpper(y)
    decreases |x|
  {
    if x == [] {
      assert x + y == y;
    } else {
      assert (x + y)[0] == x[0];
      assert (x + y)[1..] == x[1..] + y;
      SpaceUpperConcat(x[1..], y);
    }
  }

  /** A key with no uppercase letters and no surrounding white space is its
      own label. */
  lemma LabelUnchanged(key: string)
    requires forall i :: 0 <= i < |key| ==> !IsUpper(key[i])
    requires key != [] ==> !IsSpace(key[0]) && !IsSpace(key[|key| - 1])
    ensures Label(key) == key
  {
    SpaceUpperNoUpper(key);
  }

  /** Every uppercase letter of a label but a leading one follows a space. */
  lemma LabelSeparatesWords(key: string)
    ensures var l := Label(key);
      forall i :: 0 < i < |l| && IsUpper(l[i]) ==> l[i - 1] == ' '
  {
    var s := SpaceUpper(key);
    var l := Label(key);
    var a, b :| 0 <= a <= b <= |s| && l == s[a..b];
    forall i | 0 < i < |l| && IsUpper(l[i])
      ensures l[i - 1] == ' '
    {
      assert l[i] == s[a + i] && l[i - 1] == s[a + i - 1];
    }
  }

  /** The text without its white space. */
  function Visible(s: string): string {
    if s == [] then []
    else (if IsSpace(s[0]) then [] else [s[0]]) + Visible(s[1..])
  }

  lemma {:induction false} VisibleConcat(x: string, y: string)
    ensures Visible(x + y) == Visible(x) + Visible(y)
  {
    if x == [] {
      assert x + y == y;
    } else {
      assert (x + y)[0] == x[0];
      assert (x + y)[1..] == x[1..] + y;
      VisibleConcat(x[1..], y);
    }
  }

  lemma {:induction false} VisibleAllSpace(s: string)
    requires forall i :: 0 <= i < |s| ==> IsSpace(s[i])
    ensures Visible(s) == []
  {
    if s != [] {
      VisibleAllSpace(s[1..]);
    }
  }

  lemma {:induction false} VisibleSpaceUpper(s: string)
    ensures Visible(SpaceUpper(s)) == Visible(s)
  {
    if s != [] {
      var head := if IsUpper(s[0]) then [' ', s[0]] else [s[0]];
      assert SpaceUpper(s) == head + SpaceUpper(s[1..]);
      VisibleConcat(head, SpaceUpper(s[1..]));
      VisibleSpaceUpper(s[1..]);
      if IsUpper(s[0]) {
        assert Visible([s[0]]) == [s[0]];
        assert head == [' '] + [s[0]];
        VisibleConcat([' '], [s[0]]);
      }
    }
  }

  lemma SplitThree(s: string, a: nat, b: nat)
    requires a <= b <= |s|
    ensures s == s[..a] + s[a..b] + s[b..]
  {
    assert s[..b] == s[..a] + s[a..b];
  }

  /** Cutting white space from both ends keeps the visible text. */
  lemma VisibleMiddle(s: string, a: nat, b: nat)
    requires a <= b <= |s|
    requires forall i :: 0 <= i < a ==> IsSpace(s[i])
    requires forall i :: b <= i < |s| ==> IsSpace(s[i])
    ensures Visible(s[a..b]) == Visible(s)
  {
    var x, y, z := s[..a], s[a..b], s[b..];
    SplitThree(s, a, b);
    assert forall i :: 0 <= i < |x| ==> x[i] == s[i];
    assert forall i :: 0 <= i < |z| ==> z[i] == s[b + i];
    VisibleAllSpace(x);
    VisibleAllSpace(z);
    VisibleConcat(x + y, z);
    VisibleConcat(x, y);
    calc {
      Visible(s);
      Visible((x + y) + z);
      Visible(x + y) + Visible(z);
      Visible(x) + Visible(y) + [];
      { assert Visible(x) == []; }
      Visible(y);
    }
  }

  lemma VisibleTrim(s: string)
    ensures Visible(Trim(s)) == Visible(s)
  {
    var a := LeadingSpaces(s);
    if a == |s| {
      VisibleAllSpace(s);
    } else {
      var t := TrailingSpaces(s);
      assert !IsSpace(s[a]);
      VisibleMiddle(s, a, |s| - t);
    }
  }

  /** A label only adds or removes white space: its visible characters are
      the key's, in the same order. */
  lemma LabelKeepsCharacters(key: string)
    ensures Visible(Label(key)) == Visible(key)
  {
    VisibleTrim(SpaceUpper(key));
    VisibleSpaceUpper(key);
  }

  // ---------------------------------------------------------------------
  // Cells

  datatype Cell = ActionButtons | Shown(value: Value) | Dash

  /** JavaScript falsiness of a value (a number is never NaN here). */
  predicate Falsy(v: Value) {
    match v
    case Text(s) => s == ""
    case Number(x) => x == 0.0
    case Flag(b) => !b
    case Element => false
    case Null => true
    case Undefined => true
  }

  /** `item[key]`: the row's value for the key, `undefined` when absent. */
  function Lookup(row: Row, key: string): (v: Value)
    ensures (forall j :: 0 <= j < |row| ==> row[j].0 != key) ==> v == Undefined
  {
    if row == [] then Undefined
    else if row[0].0 == key then row[0].1
    else Lookup(row[1..], key)
  }

  /** A row holding the key gives the value of its first entry with it. */
  lemma {:induction false} LookupFirst(row: Row, key: string, j: nat)
    requires j < |row| && row[j].0 == key
    requires forall i :: 0 <= i < j ==> row[i].0 != key
    ensures Lookup(row, key) == row[j].1
    decreases j
  {
    if j > 0 {
      LookupFirst(row[1..], key, j - 1);
    }
  }

  /** The cell for a key and its value. */
  function CellFor(key: string, v: Value): Cell {
    if ToLower(key) == "actions" then ActionButtons
    else if v.Element? then Shown(v)
    else if Falsy(v) then Dash
    else Shown(v)
  }

  /** The 'actions' column, in any letter case, shows the buttons; a falsy
      value, 0 and the empty string included, shows '-'; anything else, an
      element included, is shown as it is. */
  lemma CellCases(key: string, v: Value)
    ensures CellFor(key, v) == ActionButtons <==> ToLower(key) == "actions"
    ensures CellFor(key, v) == Dash <==> ToLower(key) != "actions" && Falsy(v)
    ensures CellFor(key, v).Shown? <==> ToLower(key) != "actions" && !Falsy(v)
    ensures CellFor(key, v).Shown? ==> CellFor(key, v).value == v
  {
  }

  /** The column name is compared without letter case. */
  lemma ActionsAnyCase()
    ensures CellFor("Actions", Text("x")) == ActionButtons
    ensures CellFor("ACTIONS", Null) == ActionButtons
  {
    assert ToLower("Actions") == "actions";
    assert ToLower("ACTIONS") == "actions";
  }

  /** 0 and the empty string are falsy and show '-'. */
  lemma ZeroAndEmptyShowDash()
    ensures CellFor("price", Number(0.0)) == Dash
    ensures CellFor("name", Text("")) == Dash
  {
    assert ToLower("price") != "actions" by { assert |ToLower("price")| == 5; }
    assert ToLower("name") != "actions" by { assert |ToLower("name")| == 4; }
  }

  // ---------------------------------------------------------------------
  // The card

  datatype Card =
    | NoData(heading: Option<string>, message: string)
    | Table(heading: Option<string>, keys: seq<string>, headers: seq<string>, cells: seq<seq<Cell>>)

  function Render(title: Option<string>, data: seq<Row>): Card {
    if |data| == 0 then NoData(title, "No data available")
    else
      var keys := ColumnKeys(data);
      Table(if title.Some? && title.value != "" then title else None,
            keys,
            seq(|keys|, j requires 0 <= j < |keys| => Label(keys[j])),
            seq(|data|, i requires 0 <= i < |data| =>
              seq(|keys|, j requires 0 <= j < |keys| => CellFor(keys[j], Lookup(data[i], keys[j])))))
  }

  /** No rows: the message and no table; otherwise one header per column
      and one cell per row and column. */
  lemma RenderShape(title: Option<string>, data: seq<Row>)
    ensures Render(title, data).NoData? <==> data == []
    ensures data == [] ==> Render(title, data).message == "No data available"
    ensures var c := Render(title, data);
      c.Table? ==>
        && c.keys == ColumnKeys(data)
        && |c.headers| == |c.keys| && |c.cells| == |data|
        && (forall j :: 0 <= j < |c.keys| ==> c.headers[j] == Label(c.keys[j]))
        && (forall i :: 0 <= i < |data| ==> |c.cells[i]| == |c.keys|)
        && (forall i, j :: 0 <= i < |data| && 0 <= j < |c.keys| ==>
              c.cells[i][j] == CellFor(c.keys[j], Lookup(data[i], c.keys[j])))
  {
  }

  /** A row lacking a column's key shows '-' there, unless it is the
      actions column. */
  lemma MissingKeyShowsDash(title: Option<string>, data: seq<Row>, i: nat, j: nat)
    requires Render(title, data).Table?
    requires i < |data| && j < |Render(title, data).keys|
    requires forall m :: 0 <= m < |data[i]| ==> data[i][m].0 != Render(title, data).keys[j]
    requires ToLower(Render(title, data).keys[j]) != "actions"
    ensures Render(title, data).cells[i][j] == Dash
  {
    var keys := ColumnKeys(data);
    assert Render(title, data).keys == keys;
    var k := keys[j];
    assert Render(title, data).cells[i][j] == CellFor(k, Lookup(data[i], k));
    assert Lookup(data[i], k) == Undefined;
  }
}
