/**
 JSON emitter of the UVM printer: a list of rows tagged with levels becomes nested objects and
 arrays. The output is a list of tokens; the whitespace between them is not modelled.
 */
module JsonEmitter {
  import opened Wrapping
  import opened Streams

  /** size is the number behind the printer's size column. */
  datatype Row = Row(level: int, name: string, typeName: string, value: string, size: int)

  datatype Kind = OBJECT | ARRAY

  datatype Token = Open(kind: Kind) | Close(kind: Kind) | Key(name: string) | Scalar(text: string) | Comma

  predicate StartsWith(s: string, prefix: string) {
    |prefix| <= |s| && s[..|prefix|] == prefix
  }

  predicate IsArray(r: Row) {
    r.typeName == "array" || StartsWith(r.typeName, "std::vector") || StartsWith(r.typeName, "std::array")
  }

  function KindOf(r: Row): Kind {
    if IsArray(r) then ARRAY else OBJECT
  }

  /** A row opens a container when the next row is deeper. */
  predicate IsContainer(rows: seq<Row>, i: nat) {
    i + 1 < |rows| && rows[i].level < rows[i + 1].level
  }

  // ----- scalars -----

  function Reverse(s: string): (r: string)
    ensures |r| == |s|
  {
    if s == [] then [] else Reverse(s[1..]) + [s[0]]
  }

  /** std::string::resize with '0': cut off at the end, or extended there. */
  function Resize(s: string, n: nat): (r: string)
    ensures |r| == n
  {
    if n <= |s| then s[..n] else s + seq(n - |s|, _ => '0')
  }

  function PadDigits(digits: string, n: nat): string {
    Reverse(Resize(Reverse(digits), n))
  }

  function Max1(size: int): (n: nat)
    ensures n >= 1
  {
    if size < 1 then 1 else size
  }

  function ScalarText(r: Row): string {
    if r.typeName == "double" then r.value
    else if r.typeName == "int" then
      if StartsWith(r.value, "0x") then "\"0x" + PadDigits(r.value[2..], (Max1(r.size) + 3) / 4) + "\""
      else if StartsWith(r.value, "0b") then "\"0b" + PadDigits(r.value[2..], Max1(r.size)) + "\""
      else r.value
    else "\"" + r.value + "\""
  }

  /** The number a digit string denotes, most significant digit first. */
  function Denotes(digits: string, base: nat, digit: char -> nat): nat {
    if digits == [] then 0
    else base * Denotes(digits[..|digits| - 1], base, digit) + digit(digits[|digits| - 1])
  }

  /** The same with the least significant digit first. */
  function DenotesReversed(digits: string, base: nat, digit: char -> nat): nat {
    if digits == [] then 0 else digit(digits[0]) + base * DenotesReversed(digits[1..], base, digit)
  }

  lemma {:induction false} ReverseDenotes(s: string, base: nat, digit: char -> nat)
    ensures Denotes(Reverse(s), base, digit) == DenotesReversed(s, base, digit)
  {
    if s != [] {
      ReverseDenotes(s[1..], base, digit);
      assert Reverse(s)[..|s| - 1] == Reverse(s[1..]);
    }
  }

  lemma {:induction false} ReverseTwice(s: string)
    ensures Reverse(Reverse(s)) == s
  {
    if s != [] {
      ReverseTwice(s[1..]);
      ReverseAppend(Reverse(s[1..]), s[0]);
    }
  }

  lemma {:induction false} ReverseAppend(s: string, c: char)
    ensures Reverse(s + [c]) == [c] + Reverse(s)
  {
    if s != [] {
      assert (s + [c])[1..] == s[1..] + [c];
      ReverseAppend(s[1..], c);
    }
  }

  lemma {:induction false} ResizeDenotes(s: string, n: nat, base: nat, digit: char -> nat)
    requires base > 0 && digit('0') == 0 && forall i :: 0 <= i < |s| ==> digit(s[i]) < base
    ensures Power(base, n) > 0
    ensures DenotesReversed(Resize(s, n), base, digit) == DenotesReversed(s, base, digit) % Power(base, n)
    decreases n
  {
    if n > 0 {
      var rest := if s == [] then [] else s[1..];
      ResizeDenotes(rest, n - 1, base, digit);
      assert Resize(s, n)[1..] == Resize(rest, n - 1);
      WrapDigit(if s == [] then 0 else digit(s[0]), DenotesReversed(rest, base, digit), base, Power(base, n - 1));
    }
  }

  /** Padding keeps the number, reduced to the digits that fit. */
  lemma PaddingKeepsNumber(digits: string, n: nat, base: nat, digit: char -> nat)
    requires base > 0 && digit('0') == 0 && forall c :: digit(c) < base
    ensures |PadDigits(digits, n)| == n && Power(base, n) > 0
    ensures Denotes(PadDigits(digits, n), base, digit) == Denotes(digits, base, digit) % Power(base, n)
  {
    var r := Reverse(digits);
    ResizeDenotes(r, n, base, digit);
    ReverseDenotes(Resize(r, n), base, digit);
    ReverseTwice(digits);
    ReverseDenotes(r, base, digit);
  }

  lemma {:induction false} PowerGrows(m: nat, n: nat)
    requires m <= n
    ensures Pow2(m) <= Pow2(n)
    decreases n
  {
    if m < n {
      PowerGrows(m, n - 1);
    }
  }

  lemma {:induction false} PowerOfSixteen(n: nat)
    ensures Power(16, n) == Pow2(4 * n)
  {
    if n > 0 {
      PowerOfSixteen(n - 1);
      var p := Pow2(4 * n - 4);
      assert Pow2(4 * n) == 2 * Pow2(4 * n - 1) == 4 * Pow2(4 * n - 2) == 8 * Pow2(4 * n - 3) == 16 * p;
    }
  }

  /** A number between quotes and behind its two-character prefix. */
  ghost predicate Quotes(text: string, prefix: string, count: nat, number: nat, base: nat, digit: char -> nat) {
    && |text| == count + 4 && |prefix| == 2
    && text[0] == text[|text| - 1] == '"' && text[1..3] == prefix
    && Denotes(text[3..|text| - 1], base, digit) == number
  }

  lemma QuotedDigits(prefix: string, digits: string, n: nat, base: nat, digit: char -> nat)
    requires |prefix| == 2 && base > 0 && digit('0') == 0 && forall c :: digit(c) < base
    requires Denotes(digits, base, digit) < Power(base, n)
    ensures Quotes("\"" + prefix + PadDigits(digits, n) + "\"", prefix, n, Denotes(digits, base, digit), base, digit)
  {
    PaddingKeepsNumber(digits, n, base, digit);
    DivModUnique(Denotes(digits, base, digit), Power(base, n), 0, Denotes(digits, base, digit));
    var padded := PadDigits(digits, n);
    var text := "\"" + prefix + padded + "\"";
    assert text[3..|text| - 1] == padded && text[1..3] == prefix;
  }

  lemma PrefixedText(r: Row, digits: string)
    requires r.typeName == "int"
    ensures r.value == "0x" + digits ==> ScalarText(r) == "\"" + "0x" + PadDigits(digits, (Max1(r.size) + 3) / 4) + "\""
    ensures r.value == "0b" + digits ==> ScalarText(r) == "\"" + "0b" + PadDigits(digits, Max1(r.size)) + "\""
  {
    assert "\"" + "0x" == "\"0x" && "\"" + "0b" == "\"0b";
    if r.value == "0x" + digits {
      assert r.value[2..] == digits && r.value[..2] == "0x";
    } else if r.value == "0b" + digits {
      assert r.value[2..] == digits && r.value[..2] == "0b" && r.value[..2][1] == 'b';
    }
  }

  /** A hexadecimal value that fits the row's size is printed with one digit per four bits and unchanged. */
  lemma HexIsKept(r: Row, digits: string, digit: char -> nat)
    requires r.typeName == "int" && r.value == "0x" + digits
    requires digit('0') == 0 && (forall c :: digit(c) < 16) && Denotes(digits, 16, digit) < Pow2(Max1(r.size))
    ensures Quotes(ScalarText(r), "0x", (Max1(r.size) + 3) / 4, Denotes(digits, 16, digit), 16, digit)
  {
    var n := (Max1(r.size) + 3) / 4;
    PowerOfSixteen(n);
    PowerGrows(Max1(r.size), 4 * n);
    QuotedDigits("0x", digits, n, 16, digit);
    PrefixedText(r, digits);
  }

  /** A binary value that fits the row's size is printed with one digit per bit and unchanged. */
  lemma BinaryIsKept(r: Row, digits: string, digit: char -> nat)
    requires r.typeName == "int" && r.value == "0b" + digits
    requires digit('0') == 0 && (forall c :: digit(c) < 2) && Denotes(digits, 2, digit) < Pow2(Max1(r.size))
    ensures Quotes(ScalarText(r), "0b", Max1(r.size), Denotes(digits, 2, digit), 2, digit)
  {
    QuotedDigits("0b", digits, Max1(r.size), 2, digit);
    PrefixedText(r, digits);
  }

  // ----- what a scalar shows -----

  predicate Begins(s: string, prefix: string) {
    |prefix| <= |s| && forall k :: 0 <= k < |prefix| ==> s[k] == prefix[k]
  }

  /** The last n digits, with zeros in front where there are fewer. */
  function LastDigits(digits: string, n: nat): (s: string)
    ensures |s| == n
  {
    if n <= |digits| then digits[|digits| - n..] else seq(n - |digits|, _ => '0') + digits
  }

  lemma {:induction false} ReverseAt(s: string, k: nat)
    requires k < |s|
    ensures Reverse(s)[k] == s[|s| - 1 - k]
  {
    if k < |s| - 1 {
      ReverseAt(s[1..], k);
    }
  }

  /** Padding at the end of the reversed digits leaves the last ones, with zeros in front. */
  lemma PaddingIsLastDigits(digits: string, n: nat)
    ensures PadDigits(digits, n) == LastDigits(digits, n)
  {
    var padded := Resize(Reverse(digits), n);
    forall k | 0 <= k < n ensures Reverse(padded)[k] == LastDigits(digits, n)[k] {
      ReverseAt(padded, k);
      if n - 1 - k < |digits| {
        ReverseAt(digits, n - 1 - k);
      }
    }
  }

  /** As many digits of so many bits as a size asks for, one at least. */
  predicate DigitCount(n: nat, bits: nat, size: int) {
    if size < 1 then n == 1 else bits * (n - 1) < size <= bits * n
  }

  ghost predicate ShowsDigits(text: string, prefix: string, digits: string, bits: nat, size: int) {
    exists n: nat :: DigitCount(n, bits, size) && text == "\"" + prefix + LastDigits(digits, n) + "\""
  }

  /** The text of a row without children: a number as it is or, with a prefix, between quotes and with the digits
      of its size; anything else between quotes. */
  ghost predicate Shows(text: string, r: Row) {
    if r.typeName == "double" then text == r.value
    else if r.typeName == "int" && Begins(r.value, "0x") then ShowsDigits(text, "0x", r.value[2..], 4, r.size)
    else if r.typeName == "int" && Begins(r.value, "0b") then ShowsDigits(text, "0b", r.value[2..], 1, r.size)
    else if r.typeName == "int" then text == r.value
    else |text| == |r.value| + 2 && text[0] == text[|text| - 1] == '"' && text[1..|text| - 1] == r.value
  }

  lemma PrefixAgrees(s: string, prefix: string)
    ensures StartsWith(s, prefix) <==> Begins(s, prefix)
  {
    if Begins(s, prefix) {
      assert s[..|prefix|] == prefix;
    }
  }

  lemma DigitsShown(r: Row, prefix: string, digits: string, bits: nat, n: nat)
    requires DigitCount(n, bits, r.size)
    ensures ShowsDigits("\"" + prefix + PadDigits(digits, n) + "\"", prefix, digits, bits, r.size)
  {
    PaddingIsLastDigits(digits, n);
  }

  lemma ScalarShows(r: Row)
    ensures Shows(ScalarText(r), r)
  {
    PrefixAgrees(r.value, "0x");
    PrefixAgrees(r.value, "0b");
    if r.typeName == "int" && Begins(r.value, "0x") {
      DigitsShown(r, "0x", r.value[2..], 4, (Max1(r.size) + 3) / 4);
      assert "\"" + "0x" == "\"0x";
    } else if r.typeName == "int" && Begins(r.value, "0b") {
      DigitsShown(r, "0b", r.value[2..], 1, Max1(r.size));
      assert "\"" + "0b" == "\"0b";
    } else if r.typeName != "double" && r.typeName != "int" {
      var text := "\"" + r.value + "\"";
      assert text[1..|text| - 1] == r.value;
    }
  }

  // ----- the grouping the emitter follows -----

  datatype Node = Leaf(row: Row) | Branch(row: Row, children: seq<Node>)

  /** From row i on, the rows at level or deeper, grouped; and the first row left over. */
  function Items(rows: seq<Row>, i: nat, level: int): (r: (seq<Node>, nat))
    requires i <= |rows|
    ensures i <= r.1 <= |rows|
    ensures r.1 < |rows| ==> rows[r.1].level < level
    decreases |rows| - i, 1
  {
    if i == |rows| || rows[i].level < level then ([], i) else
    var (node, j) := Item(rows, i);
    var (rest, next) := Items(rows, j, level);
    ([node] + rest, next)
  }

  /** One row with what is grouped under it. */
  function Item(rows: seq<Row>, i: nat): (r: (Node, nat))
    requires i < |rows|
    ensures i < r.1 <= |rows|
    decreases |rows| - i, 0
  {
    if IsContainer(rows, i) then
      var (children, j) := Items(rows, i + 1, rows[i + 1].level);
      (Branch(rows[i], children), j)
    else (Leaf(rows[i]), i + 1)
  }

  /** The tokens of a list of members or elements, separated by commas. */
  function PrintNodes(nodes: seq<Node>, kind: Kind): seq<Token>
    decreases nodes, 0
  {
    if nodes == [] then [] else
    PrintItem(nodes[0], kind) + (if |nodes| == 1 then [] else [Comma] + PrintNodes(nodes[1..], kind))
  }

  function PrintItem(node: Node, kind: Kind): seq<Token>
    decreases node, 1
  {
    (if kind == OBJECT then [Key(node.row.name)] else []) + PrintNode(node)
  }

  function PrintNode(node: Node): seq<Token>
    decreases node, 0
  {
    match node
    case Leaf(row) => [Scalar(ScalarText(row))]
    case Branch(row, children) => [Open(KindOf(row))] + PrintNodes(children, KindOf(row)) + [Close(KindOf(row))]
  }

  /** All rows of a list of nodes, parents before children. */
  function Flatten(nodes: seq<Node>): (rows: seq<Row>)
    ensures nodes != [] ==> rows != [] && rows[0] == nodes[0].row
  {
    if nodes == [] then [] else FlattenNode(nodes[0]) + Flatten(nodes[1..])
  }

  function FlattenNode(node: Node): (rows: seq<Row>)
    ensures rows != [] && rows[0] == node.row
  {
    match node
    case Leaf(row) => [row]
    case Branch(row, children) => [row] + Flatten(children)
  }

  /** Every row is used once, in order. */
  lemma {:induction false} ItemsUseEachRow(rows: seq<Row>, i: nat, level: int)
    requires i <= |rows|
    ensures Flatten(Items(rows, i, level).0) == rows[i..Items(rows, i, level).1]
    decreases |rows| - i
  {
    if i < |rows| && rows[i].level >= level {
      var (node, j) := Item(rows, i);
      if IsContainer(rows, i) {
        ItemsUseEachRow(rows, i + 1, rows[i + 1].level);
      }
      assert FlattenNode(node) == rows[i..j];
      ItemsUseEachRow(rows, j, level);
      assert Items(rows, i, level).0[1..] == Items(rows, j, level).0;
    }
  }

  /** None of them is above the level asked for. */
  lemma {:induction false} ItemsAreDeep(rows: seq<Row>, i: nat, level: int, k: nat)
    requires i <= |rows| && i <= k < Items(rows, i, level).1
    ensures rows[k].level >= level
    decreases |rows| - i
  {
    var j := Item(rows, i).1;
    if k >= j {
      ItemsAreDeep(rows, j, level, k);
    } else if k > i {
      ItemsAreDeep(rows, i + 1, rows[i + 1].level, k);
    }
  }

  // ----- reading the tokens back -----

  datatype Json = Text(text: string) | Object(members: seq<(string, Json)>) | Array(elements: seq<Json>)

  /** A value and the tokens behind it. A strict grammar: exactly one comma between two members. */
  function ParseValue(ts: seq<Token>): (r: Option<(Json, seq<Token>)>)
    ensures r.Some? ==> |r.value.1| < |ts|
    decreases |ts|, 0
  {
    if ts == [] then None else
    match ts[0]
    case Scalar(text) => Some((Text(text), ts[1..]))
    case Open(OBJECT) =>
      if |ts| > 1 && ts[1] == Close(OBJECT) then Some((Object([]), ts[2..])) else
      var m := ParseMembers(ts[1..]);
      if m.None? then None else Some((Object(m.value.0), m.value.1))
    case Open(ARRAY) =>
      if |ts| > 1 && ts[1] == Close(ARRAY) then Some((Array([]), ts[2..])) else
      var m := ParseElements(ts[1..]);
      if m.None? then None else Some((Array(m.value.0), m.value.1))
    case _ => None
  }

  /** One or more members up to and including the closing brace. */
  function ParseMembers(ts: seq<Token>): (r: Option<(seq<(string, Json)>, seq<Token>)>)
    ensures r.Some? ==> |r.value.1| < |ts|
    decreases |ts|, 1
  {
    if ts == [] || !ts[0].Key? then None else
    var v := ParseValue(ts[1..]);
    if v.None? || v.value.1 == [] then None else
    var (json, rest) := v.value;
    if rest[0] == Close(OBJECT) then Some(([(ts[0].name, json)], rest[1..]))
    else if rest[0] == Comma then
      var m := ParseMembers(rest[1..]);
      if m.None? then None else Some(([(ts[0].name, json)] + m.value.0, m.value.1))
    else None
  }

  function ParseElements(ts: seq<Token>): (r: Option<(seq<Json>, seq<Token>)>)
    ensures r.Some? ==> |r.value.1| < |ts|
    decreases |ts|, 1
  {
    var v := ParseValue(ts);
    if v.None? || v.value.1 == [] then None else
    var (json, rest) := v.value;
    if rest[0] == Close(ARRAY) then Some(([json], rest[1..]))
    else if rest[0] == Comma then
      var m := ParseElements(rest[1..]);
      if m.None? then None else Some(([json] + m.value.0, m.value.1))
    else None
  }

  function ToJson(node: Node): Json {
    match node
    case Leaf(row) => Text(ScalarText(row))
    case Branch(row, children) => if IsArray(row) then Array(ToElements(children)) else Object(ToMembers(children))
  }

  function ToMembers(nodes: seq<Node>): seq<(string, Json)> {
    if nodes == [] then [] else [(nodes[0].row.name, ToJson(nodes[0]))] + ToMembers(nodes[1..])
  }

  function ToElements(nodes: seq<Node>): seq<Json> {
    if nodes == [] then [] else [ToJson(nodes[0])] + ToElements(nodes[1..])
  }

  ghost predicate ShowsArray(r: Row) {
    r.typeName == "array" || Begins(r.typeName, "std::vector") || Begins(r.typeName, "std::array")
  }

  /** A value says all that a row and the rows grouped under it say. */
  ghost predicate Represents(json: Json, node: Node)
    decreases node, 0
  {
    match node
    case Leaf(row) => json.Text? && Shows(json.text, row)
    case Branch(row, children) =>
      if ShowsArray(row) then json.Array? && RepresentsElements(json.elements, children)
      else json.Object? && RepresentsMembers(json.members, children)
  }

  /** One member for each row, in order and under its name. */
  ghost predicate RepresentsMembers(members: seq<(string, Json)>, nodes: seq<Node>)
    decreases nodes, 1
  {
    && |members| == |nodes|
    && (nodes != [] ==>
          && members[0].0 == nodes[0].row.name && Represents(members[0].1, nodes[0])
          && RepresentsMembers(members[1..], nodes[1..]))
  }

  ghost predicate RepresentsElements(elements: seq<Json>, nodes: seq<Node>)
    decreases nodes, 1
  {
    && |elements| == |nodes|
    && (nodes != [] ==> Represents(elements[0], nodes[0]) && RepresentsElements(elements[1..], nodes[1..]))
  }

  lemma {:induction false} NodeRepresented(node: Node)
    ensures Represents(ToJson(node), node)
    decreases node, 0
  {
    match node
    case Leaf(row) =>
      ScalarShows(row);
    case Branch(row, children) =>
      PrefixAgrees(row.typeName, "std::vector");
      PrefixAgrees(row.typeName, "std::array");
      NodesRepresented(children);
  }

  lemma {:induction false} NodesRepresented(nodes: seq<Node>)
    ensures RepresentsMembers(ToMembers(nodes), nodes) && RepresentsElements(ToElements(nodes), nodes)
    decreases nodes, 1
  {
    if nodes != [] {
      NodeRepresented(nodes[0]);
      NodesRepresented(nodes[1..]);
      assert ToMembers(nodes)[1..] == ToMembers(nodes[1..]) && ToElements(nodes)[1..] == ToElements(nodes[1..]);
    }
  }

  lemma {:induction false} ParsePrintedNode(node: Node, rest: seq<Token>)
    ensures ParseValue(PrintNode(node) + rest) == Some((ToJson(node), rest))
    decreases node, 0
  {
    match node
    case Leaf(row) =>
    case Branch(row, children) =>
      var kind, last := KindOf(row), [Close(KindOf(row))] + rest;
      var ts := PrintNode(node) + rest;
      assert ts == [Open(kind)] + (PrintNodes(children, kind) + last) by {
        Regroup([Open(kind)] + PrintNodes(children, kind), [Close(kind)], rest);
        Regroup([Open(kind)], PrintNodes(children, kind), last);
      }
      assert ts[1..] == PrintNodes(children, kind) + last;
      if children == [] {
        assert ts[1..] == last && ts[2..] == rest;
      } else {
        ParsePrintedNodes(children, kind, rest);
        FirstItem(children, kind, last);
        PrintedStart(children[0]);
        assert ts[1] != Close(kind);
      }
  }

  /** One member, up to the token that ends it. */
  lemma ParseMember(name: string, value: seq<Token>, json: Json, tail: seq<Token>)
    requires tail != [] && ParseValue(value) == Some((json, tail))
    ensures tail[0] == Close(OBJECT) ==> ParseMembers([Key(name)] + value) == Some(([(name, json)], tail[1..]))
    ensures tail[0] == Comma && ParseMembers(tail[1..]).Some? ==>
              var (members, rest) := ParseMembers(tail[1..]).value;
              ParseMembers([Key(name)] + value) == Some(([(name, json)] + members, rest))
  {
    assert ([Key(name)] + value)[1..] == value;
  }

  lemma ParseElement(value: seq<Token>, json: Json, tail: seq<Token>)
    requires tail != [] && ParseValue(value) == Some((json, tail))
    ensures tail[0] == Close(ARRAY) ==> ParseElements(value) == Some(([json], tail[1..]))
    ensures tail[0] == Comma && ParseElements(tail[1..]).Some? ==>
              var (elements, rest) := ParseElements(tail[1..]).value;
              ParseElements(value) == Some(([json] + elements, rest))
  {
  }

  /** Members or elements, and the closing token, are read back completely. */
  ghost predicate ReadBack(ts: seq<Token>, nodes: seq<Node>, kind: Kind, rest: seq<Token>) {
    if kind == OBJECT then ParseMembers(ts) == Some((ToMembers(nodes), rest))
    else ParseElements(ts) == Some((ToElements(nodes), rest))
  }

  /** What stands behind the first item. */
  function Behind(nodes: seq<Node>, kind: Kind, last: seq<Token>): seq<Token>
    requires nodes != []
  {
    if |nodes| == 1 then last else [Comma] + (PrintNodes(nodes[1..], kind) + last)
  }

  lemma FirstItem(nodes: seq<Node>, kind: Kind, last: seq<Token>)
    requires nodes != []
    ensures var value := PrintNode(nodes[0]) + Behind(nodes, kind, last);
            PrintNodes(nodes, kind) + last == if kind == OBJECT then [Key(nodes[0].row.name)] + value else value
  {
    var item, value := PrintItem(nodes[0], kind), PrintNode(nodes[0]);
    if |nodes| == 1 {
      assert PrintNodes(nodes, kind) == item + [] == item;
    } else {
      var more := PrintNodes(nodes[1..], kind);
      Regroup(item, [Comma] + more, last);
      Regroup([Comma], more, last);
    }
    if kind == OBJECT {
      Regroup([Key(nodes[0].row.name)], value, Behind(nodes, kind, last));
    } else {
      assert item == [] + value == value;
    }
  }

  lemma PrintedStart(node: Node)
    ensures PrintNode(node) != [] && !PrintNode(node)[0].Close?
  {
  }

  lemma {:induction false} ParsePrintedNodes(nodes: seq<Node>, kind: Kind, rest: seq<Token>)
    requires nodes != []
    ensures ReadBack(PrintNodes(nodes, kind) + ([Close(kind)] + rest), nodes, kind, rest)
    decreases nodes, 1
  {
    var node, last := nodes[0], [Close(kind)] + rest;
    var tail := Behind(nodes, kind, last);
    if |nodes| > 1 {
      ParsePrintedNodes(nodes[1..], kind, rest);
      assert tail[1..] == PrintNodes(nodes[1..], kind) + last;
    } else {
      assert tail[1..] == rest && nodes[1..] == [];
    }
    ParsePrintedNode(node, tail);
    FirstItem(nodes, kind, last);
    if kind == OBJECT {
      ParseMember(node.row.name, PrintNode(node) + tail, ToJson(node), tail);
      assert |nodes| == 1 ==> ToMembers(nodes) == [(node.row.name, ToJson(node))];
    } else {
      ParseElement(PrintNode(node) + tail, ToJson(node), tail);
      assert |nodes| == 1 ==> ToElements(nodes) == [ToJson(node)];
    }
  }

  /** The outermost object is read back, and nothing is left. */
  lemma ParsePrintedForest(nodes: seq<Node>)
    ensures ParseValue([Open(OBJECT)] + PrintNodes(nodes, OBJECT) + [Close(OBJECT)])
         == Some((Object(ToMembers(nodes)), []))
  {
    var ts, last := [Open(OBJECT)] + PrintNodes(nodes, OBJECT) + [Close(OBJECT)], [Close(OBJECT)];
    Regroup([Open(OBJECT)], PrintNodes(nodes, OBJECT), last);
    assert ts[1..] == PrintNodes(nodes, OBJECT) + last && last + [] == last;
    if nodes == [] {
      assert ts[1..] == last && ts[2..] == [];
    } else {
      ParsePrintedNodes(nodes, OBJECT, []);
      FirstItem(nodes, OBJECT, last);
      assert ts[1] != Close(OBJECT);
    }
  }

  // ----- the emitter as a whole -----

  function LevelAt(rows: seq<Row>, i: nat): int {
    if i < |rows| then rows[i].level else 0
  }

  function Emit(rows: seq<Row>): seq<Token> {
    [Open(OBJECT)] + PrintNodes(Items(rows, 0, LevelAt(rows, 0)).0, OBJECT) + [Close(OBJECT)]
  }

  /** Main result: whatever the levels, the output is one well-formed object; reading it gives the
      grouping, in which every row up to the first one above the first row's level occurs once, in order. */
  lemma EmitIsWellFormed(rows: seq<Row>)
    ensures var (nodes, next) := Items(rows, 0, LevelAt(rows, 0));
            && ParseValue(Emit(rows)) == Some((Object(ToMembers(nodes)), []))
            && RepresentsMembers(ToMembers(nodes), nodes)
            && Flatten(nodes) == rows[..next]
            && (next < |rows| ==> rows[next].level < rows[0].level)
            && (forall k :: 0 <= k < next ==> rows[k].level >= rows[0].level)
  {
    var nodes := Items(rows, 0, LevelAt(rows, 0)).0;
    ItemsUseEachRow(rows, 0, LevelAt(rows, 0));
    forall k | 0 <= k < Items(rows, 0, LevelAt(rows, 0)).1 ensures rows[k].level >= rows[0].level {
      ItemsAreDeep(rows, 0, LevelAt(rows, 0), k);
    }
    ParsePrintedForest(nodes);
    NodesRepresented(nodes);
  }

  /** Siblings share a level, and children are deeper than their parent. */
  ghost predicate Indented(nodes: seq<Node>, level: int)
    decreases nodes, 0
  {
    nodes == [] || (IndentedNode(nodes[0], level) && Indented(nodes[1..], level))
  }

  ghost predicate IndentedNode(node: Node, level: int)
    decreases node, 0
  {
    && node.row.level == level
    && (node.Branch? ==>
          && node.children != [] && level < node.children[0].row.level
          && Indented(node.children, node.children[0].row.level))
  }

  /** Where the rows of the first node end, the rows of the others begin. */
  lemma {:induction false} FlattenSplit(rows: seq<Row>, i: nat, end: nat, nodes: seq<Node>)
    requires nodes != [] && i <= end <= |rows| && rows[i..end] == Flatten(nodes)
    ensures var m := i + |FlattenNode(nodes[0])|;
            && m <= end && rows[i..m] == FlattenNode(nodes[0]) && rows[m..end] == Flatten(nodes[1..])
            && rows[i] == nodes[0].row
            && (m < end ==> |nodes| > 1 && rows[m] == nodes[1].row)
  {
    var m := i + |FlattenNode(nodes[0])|;
    assert Flatten(nodes) == FlattenNode(nodes[0]) + Flatten(nodes[1..]);
    assert rows[i..m] == rows[i..end][..m - i];
    assert rows[m..end] == rows[i..end][m - i..];
    assert rows[i] == rows[i..m][0];
    if m < end {
      assert rows[m] == rows[m..end][0];
    }
  }

  lemma FirstAndRest(nodes: seq<Node>)
    requires nodes != []
    ensures nodes == [nodes[0]] + nodes[1..]
  {
  }

  lemma {:induction false} ItemsUnfold(rows: seq<Row>, i: nat, level: int)
    requires i < |rows| && rows[i].level >= level
    ensures var (node, j) := Item(rows, i); var (rest, next) := Items(rows, j, level);
            Items(rows, i, level) == ([node] + rest, next)
  {
  }

  function LevelOf(rows: seq<Row>, i: nat): Option<int> {
    if i < |rows| then Some(rows[i].level) else None
  }

  /** The grouping of any list of rows, next being the level of the row behind it: a list goes on while rows are
      at its level or deeper, and a row has children exactly if the row behind it is deeper. */
  ghost predicate Grouped(nodes: seq<Node>, level: int, next: Option<int>)
    decreases nodes, 0
  {
    if nodes == [] then next.None? || next.value < level else
    && nodes[0].row.level >= level
    && GroupedNode(nodes[0], if |nodes| > 1 then Some(nodes[1].row.level) else next)
    && Grouped(nodes[1..], level, next)
  }

  ghost predicate GroupedNode(node: Node, next: Option<int>)
    decreases node, 0
  {
    match node
    case Leaf(row) => next.None? || next.value <= row.level
    case Branch(row, children) =>
      && children != [] && children[0].row.level > row.level && Grouped(children, children[0].row.level, next)
  }

  lemma {:induction false} ItemsAreGrouped(rows: seq<Row>, i: nat, level: int)
    requires i <= |rows|
    ensures var (nodes, end) := Items(rows, i, level);
            && Grouped(nodes, level, LevelOf(rows, end))
            && (if nodes == [] then end == i else i < |rows| && nodes[0].row == rows[i])
    decreases |rows| - i, 1
  {
    if i < |rows| && rows[i].level >= level {
      var (node, j) := Item(rows, i);
      var (rest, end) := Items(rows, j, level);
      ItemsUnfold(rows, i, level);
      ItemIsGrouped(rows, i);
      ItemsAreGrouped(rows, j, level);
      assert ([node] + rest)[1..] == rest;
    }
  }

  lemma {:induction false} ItemIsGrouped(rows: seq<Row>, i: nat)
    requires i < |rows|
    ensures var (node, j) := Item(rows, i); node.row == rows[i] && GroupedNode(node, LevelOf(rows, j))
    decreases |rows| - i, 0
  {
    if IsContainer(rows, i) {
      ItemsAreGrouped(rows, i + 1, rows[i + 1].level);
      ItemsUnfold(rows, i + 1, rows[i + 1].level);
    }
  }

  /** There is no other such grouping. */
  lemma {:induction false} GroupingIsUnique(rows: seq<Row>, i: nat, end: nat, nodes: seq<Node>, level: int)
    requires i <= end <= |rows| && rows[i..end] == Flatten(nodes) && Grouped(nodes, level, LevelOf(rows, end))
    ensures Items(rows, i, level) == (nodes, end)
    decreases nodes
  {
    if nodes != [] {
      FlattenSplit(rows, i, end, nodes);
      var m := i + |FlattenNode(nodes[0])|;
      assert |nodes| > 1 ==> nodes[1..][0] == nodes[1];
      GroupNode(rows, i, m, nodes[0]);
      GroupingIsUnique(rows, m, end, nodes[1..], level);
      ItemsUnfold(rows, i, level);
      FirstAndRest(nodes);
    }
  }

  /** The rows of one node are grouped into that node. */
  lemma {:induction false} GroupNode(rows: seq<Row>, i: nat, end: nat, node: Node)
    requires i <= end <= |rows| && rows[i..end] == FlattenNode(node) && GroupedNode(node, LevelOf(rows, end))
    ensures i < |rows| && Item(rows, i) == (node, end)
    decreases node
  {
    assert rows[i] == rows[i..end][0];
    match node
    case Leaf(row) =>
    case Branch(row, children) =>
      assert rows[i + 1..end] == rows[i..end][1..] == Flatten(children);
      assert rows[i + 1] == rows[i + 1..end][0];
      GroupingIsUnique(rows, i + 1, end, children, children[0].row.level);
  }

  /** Hence, for any levels, what is printed is the one grouping of the rows up to the first that is above the list. */
  lemma GroupingIff(rows: seq<Row>, i: nat, end: nat, nodes: seq<Node>, level: int)
    requires i <= end <= |rows|
    ensures Items(rows, i, level) == (nodes, end)
       <==> Flatten(nodes) == rows[i..end] && Grouped(nodes, level, LevelOf(rows, end))
  {
    ItemsUseEachRow(rows, i, level);
    ItemsAreGrouped(rows, i, level);
    if Flatten(nodes) == rows[i..end] && Grouped(nodes, level, LevelOf(rows, end)) {
      GroupingIsUnique(rows, i, end, nodes, level);
    }
  }

  lemma {:induction false} IndentedIsGrouped(nodes: seq<Node>, level: int, next: Option<int>)
    requires Indented(nodes, level) && (next.None? || next.value < level)
    ensures Grouped(nodes, level, next)
    decreases nodes
  {
    if nodes != [] {
      assert |nodes| > 1 ==> nodes[1..][0] == nodes[1] && IndentedNode(nodes[1], level);
      var after := if |nodes| > 1 then Some(nodes[1].row.level) else next;
      if nodes[0].Branch? {
        IndentedIsGrouped(nodes[0].children, nodes[0].children[0].row.level, after);
      }
      IndentedIsGrouped(nodes[1..], level, next);
    }
  }

  /** The levels of an indented forest determine it: grouping its rows gives the forest back. */
  lemma GroupingRecovers(rows: seq<Row>, i: nat, end: nat, nodes: seq<Node>, level: int)
    requires Indented(nodes, level)
    requires i <= end <= |rows| && rows[i..end] == Flatten(nodes) && (end < |rows| ==> rows[end].level < level)
    ensures Items(rows, i, level) == (nodes, end)
  {
    IndentedIsGrouped(nodes, level, LevelOf(rows, end));
    GroupingIsUnique(rows, i, end, nodes, level);
  }

  /** Emitting the rows of an indented forest and reading the text gives the forest. */
  lemma {:induction false} ForestRoundTrip(nodes: seq<Node>)
    requires nodes != [] && Indented(nodes, nodes[0].row.level)
    ensures ParseValue(Emit(Flatten(nodes))) == Some((Object(ToMembers(nodes)), []))
    ensures RepresentsMembers(ToMembers(nodes), nodes)
  {
    var rows := Flatten(nodes);
    assert rows[0..|rows|] == rows;
    GroupingRecovers(rows, 0, |rows|, nodes, nodes[0].row.level);
    EmitIsWellFormed(Flatten(nodes));
  }

  // ----- which lists of levels keep their nesting -----

  /** Row k comes back to a level between that of row i and that of the rows after i: it lies deeper
      than the parent i and yet above the first child. */
  predicate Misplaced(rows: seq<Row>, i: nat, k: nat)
    requires i < k < |rows|
  {
    && i + 1 < k
    && rows[i].level < rows[k].level
    && forall j :: i < j < k ==> rows[k].level < rows[j].level
  }

  /** No row from from on and before end is misplaced. */
  predicate Consistent(rows: seq<Row>, from: nat, end: nat)
    requires from <= end <= |rows|
  {
    forall i, k :: from <= i < k < end ==> !Misplaced(rows, i, k)
  }

  /** A list of items: its first row with the rows under it, then the other siblings. */
  lemma ConsistentSplit(rows: seq<Row>, i: nat, j: nat, end: nat)
    requires i < j <= end <= |rows|
    requires forall k :: i < k < j ==> rows[k].level >= rows[i + 1].level > rows[i].level
    requires forall k :: j <= k < end ==> rows[k].level >= rows[i].level
    requires j < end ==> if j == i + 1 then rows[j].level == rows[i].level else rows[j].level < rows[i + 1].level
    ensures Consistent(rows, i, end) <==>
              && Consistent(rows, i + 1, j) && Consistent(rows, j, end)
              && (j < end ==> rows[j].level == rows[i].level)
  {
    if j < end && rows[j].level != rows[i].level {
      assert Misplaced(rows, i, j);
    } else {
      forall a, k | i <= a < k < end && Misplaced(rows, a, k)
        ensures (i + 1 <= a && k < j) || j <= a
      {
      }
    }
  }

  /** What follows the first item of a list. */
  lemma FirstItemEnds(rows: seq<Row>, i: nat)
    requires i < |rows|
    ensures var j := Item(rows, i).1;
            && (forall k :: i < k < j ==> rows[k].level >= rows[i + 1].level > rows[i].level)
            && (j < |rows| ==> if j == i + 1 then rows[j].level <= rows[i].level else rows[j].level < rows[i + 1].level)
  {
    if IsContainer(rows, i) {
      var j := Item(rows, i).1;
      forall k | i < k < j ensures rows[k].level >= rows[i + 1].level {
        ItemsAreDeep(rows, i + 1, rows[i + 1].level, k);
      }
    }
  }

  /** The grouping is properly indented exactly if no row it uses is misplaced. */
  lemma {:induction false} IndentedItems(rows: seq<Row>, i: nat, level: int)
    requires i < |rows| && rows[i].level == level
    ensures var (nodes, end) := Items(rows, i, level);
            nodes != [] && nodes[0].row == rows[i] && (Indented(nodes, level) <==> Consistent(rows, i, end))
    decreases |rows| - i, 1
  {
    var (node, j) := Item(rows, i);
    var (rest, end) := Items(rows, j, level);
    ItemsUnfold(rows, i, level);
    FirstItemEnds(rows, i);
    forall k | j <= k < end ensures rows[k].level >= level {
      ItemsAreDeep(rows, j, level, k);
    }
    ConsistentSplit(rows, i, j, end);
    assert IndentedNode(node, level) <==> Consistent(rows, i + 1, j) by {
      IndentedItem(rows, i);
    }
    IndentedRest(rows, j, level);
    assert ([node] + rest)[1..] == rest;
  }

  lemma {:induction false} IndentedItem(rows: seq<Row>, i: nat)
    requires i < |rows|
    ensures var (node, j) := Item(rows, i);
            node.row == rows[i] && (IndentedNode(node, rows[i].level) <==> Consistent(rows, i + 1, j))
    decreases |rows| - i, 0
  {
    if IsContainer(rows, i) {
      IndentedItems(rows, i + 1, rows[i + 1].level);
    }
  }

  /** The siblings behind the first item: they must start at the level of the list. */
  lemma {:induction false} IndentedRest(rows: seq<Row>, j: nat, level: int)
    requires j <= |rows|
    ensures var (rest, end) := Items(rows, j, level);
            Indented(rest, level) <==> Consistent(rows, j, end) && (j < end ==> rows[j].level == level)
    decreases |rows| - j, 2
  {
    if j < |rows| && rows[j].level == level {
      IndentedItems(rows, j, level);
    } else if j < |rows| && rows[j].level > level {
      ItemsUnfold(rows, j, level);
      IndentedItem(rows, j);
    }
  }

  /** Every row is printed exactly if none lies above the first one. */
  lemma AllRowsPrinted(rows: seq<Row>)
    ensures Items(rows, 0, LevelAt(rows, 0)).1 == |rows|
       <==> forall k :: 0 <= k < |rows| ==> rows[k].level >= rows[0].level
  {
    EmitIsWellFormed(rows);
  }

  /** The printed nesting is that of the levels exactly if no printed row is misplaced. */
  lemma {:induction false} IndentedGrouping(rows: seq<Row>)
    requires rows != []
    ensures var (nodes, end) := Items(rows, 0, rows[0].level);
            Indented(nodes, rows[0].level) <==> Consistent(rows, 0, end)
  {
    IndentedItems(rows, 0, rows[0].level);
  }

  /** Hence a list of levels encodes an indented forest, and the printed text is that forest, exactly if
      no row lies above the first one and none is misplaced. */
  lemma {:induction false} ForestIffConsistent(rows: seq<Row>)
    requires rows != []
    ensures (exists nodes :: Indented(nodes, rows[0].level) && Flatten(nodes) == rows)
       <==> (forall k :: 0 <= k < |rows| ==> rows[k].level >= rows[0].level) && Consistent(rows, 0, |rows|)
    ensures forall nodes :: Indented(nodes, rows[0].level) && Flatten(nodes) == rows ==>
              ParseValue(Emit(rows)) == Some((Object(ToMembers(nodes)), []))
  {
    var (grouped, end) := Items(rows, 0, rows[0].level);
    IndentedGrouping(rows);
    AllRowsPrinted(rows);
    ItemsUseEachRow(rows, 0, rows[0].level);
    EmitIsWellFormed(rows);
    assert rows[0..|rows|] == rows;
    assert end == |rows| ==> Flatten(grouped) == rows;
    forall nodes | Indented(nodes, rows[0].level) && Flatten(nodes) == rows ensures nodes == grouped && end == |rows| {
      GroupingRecovers(rows, 0, |rows|, nodes, rows[0].level);
    }
  }

  /** A list that loses its nesting: the third row, deeper than the first and above the second, is
      printed beside the first. */
  lemma MisplacedRow(a: Row, b: Row, c: Row)
    requires a.level == 0 && b.level == 2 && c.level == 1
    ensures var (nodes, end) := Items([a, b, c], 0, 0);
            nodes == [Branch(a, [Leaf(b)]), Leaf(c)] && !Indented(nodes, 0)
  {
    var rows := [a, b, c];
    assert Items(rows, 3, 0) == ([], 3);
    ItemsUnfold(rows, 2, 0);
    assert Items(rows, 2, 2) == ([], 2);
    ItemsUnfold(rows, 1, 2);
    ItemsUnfold(rows, 0, 0);
    assert [Leaf(c)] + [] == [Leaf(c)] && [Leaf(b)] + [] == [Leaf(b)];
    assert Misplaced(rows, 0, 2);
    IndentedGrouping(rows);
  }

  /** A list that loses a row: the second one lies above the first. */
  lemma LostRow(a: Row, b: Row)
    requires a.level == 1 && b.level == 0
    ensures Items([a, b], 0, 1) == ([Leaf(a)], 1)
  {
    var rows := [a, b];
    assert Items(rows, 1, 1) == ([], 1);
    ItemsUnfold(rows, 0, 1);
    assert [Leaf(a)] + [] == [Leaf(a)];
  }

  lemma {:induction false} PrintAppend(nodes: seq<Node>, node: Node, kind: Kind)
    ensures PrintNodes(nodes + [node], kind)
         == PrintNodes(nodes, kind) + (if nodes == [] then [] else [Comma]) + PrintItem(node, kind)
  {
    if nodes != [] {
      assert (nodes + [node])[1..] == nodes[1..] + [node];
      PrintAppend(nodes[1..], node, kind);
    }
  }

  lemma ItemAppended(start: seq<Token>, done: seq<Node>, node: Node, kind: Kind)
    ensures ((start + PrintNodes(done, kind)) + (if done == [] then [] else [Comma])) + PrintItem(node, kind)
         == start + PrintNodes(done + [node], kind)
  {
    var printed, sep := PrintNodes(done, kind), if done == [] then [] else [Comma];
    PrintAppend(done, node, kind);
    Regroup(start, printed, sep);
    Regroup(start, printed + sep, PrintItem(node, kind));
  }

  class Emitter {
    const rows: seq<Row>
    var row: nat
    var output: seq<Token>

    constructor (rows: seq<Row>)
      ensures this.rows == rows && row == 0 && output == []
    {
      this.rows := rows;
      row, output := 0, [];
    }

    method EmitAll()
      modifies this
      ensures output == Emit(rows)
      ensures var json := ParseValue(output);
              && json.Some? && json.value.0.Object? && json.value.1 == []
              && RepresentsMembers(json.value.0.members, Items(rows, 0, LevelAt(rows, 0)).0)
    {
      row := 0;
      output := [];
      Print(OBJECT);
      EmitIsWellFormed(rows);
    }

    /** Prints one object or array; the row iterator is shared by all levels of the recursion. */
    method Print(kind: Kind)
      requires row <= |rows|
      modifies this
      ensures var level := LevelAt(rows, old(row)); var (nodes, next) := Items(rows, old(row), level);
              && row == next
              && output == old(output) + ([Open(kind)] + PrintNodes(nodes, kind) + [Close(kind)])
      decreases |rows| - row, 1
    {
      var level := if row < |rows| then rows[row].level else 0;
      ghost var all := Items(rows, row, level);
      output := output + [Open(kind)];
      ghost var done: seq<Node>, start := [], output;
      while row < |rows| && rows[row].level >= level
        invariant old(row) <= row <= |rows|
        invariant all.0 == done + Items(rows, row, level).0 && all.1 == Items(rows, row, level).1
        invariant output == start + PrintNodes(done, kind)
                            + (if done != [] && row < |rows| && rows[row].level >= level then [Comma] else [])
        decreases |rows| - row
      {
        ghost var node, rest := Item(rows, row).0, Items(rows, Item(rows, row).1, level).0;
        ItemsUnfold(rows, row, level);
        Regroup(done, [node], rest);
        ItemAppended(start, done, node, kind);
        PrintRow(kind);
        if row < |rows| && rows[row].level >= level {
          output := output + [Comma];
        }
        done := done + [node];
      }
      assert done == all.0;
      assert output + [Close(kind)] == old(output) + ([Open(kind)] + PrintNodes(done, kind) + [Close(kind)]);
      output := output + [Close(kind)];
    }

    /** One turn of that loop: a member or element, which may be a container of its own. */
    method PrintRow(kind: Kind)
      requires row < |rows|
      modifies this
      ensures var (node, next) := Item(rows, old(row));
              row == next && output == old(output) + PrintItem(node, kind)
      decreases |rows| - row, 0
    {
      var r := rows[row];
      ghost var before := output;
      if kind == OBJECT {
        output := output + [Key(r.name)];
      }
      ghost var start := output;
      if row + 1 < |rows| && r.level < rows[row + 1].level {
        var inner := if IsArray(r) then ARRAY else OBJECT;
        row := row + 1;
        Print(inner);
      } else {
        output := output + [Scalar(ScalarText(r))];
        row := row + 1;
      }
      assert output == start + PrintNode(Item(rows, old(row)).0);
    }
  }
}
