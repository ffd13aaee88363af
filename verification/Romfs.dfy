/** The binary ROM filesystem image that tools/mkromfs.py writes, and reading it back.

    An image consists of directory entries of four 32-bit words (type, address of the name, address of
    the data, size) followed by names and data; all addresses are absolute. */
module Romfs {
  import opened Wrappers

  type Byte = b: int | 0 <= b < 256

  const WORD := 0x1_0000_0000
  const ENTRY := 16 // bin_fmt.size

  datatype Node = File(name: seq<Byte>, data: seq<Byte>) | Folder(name: seq<Byte>, children: seq<Node>)

  // ---------------------------------------------------------------- writing

  function Zeros(n: nat): seq<Byte> {
    seq(n, _ => 0)
  }

  /** bin_name: at least one NUL, up to a multiple of four */
  function BinName(name: seq<Byte>): (b: seq<Byte>)
    ensures |b| % 4 == 0 && |name| < |b| <= |name| + 4
  {
    name + Zeros(4 - |name| % 4)
  }

  /** Data padded to a multiple of four */
  function Padded(data: seq<Byte>): (b: seq<Byte>)
    ensures |b| % 4 == 0 && |data| <= |b| < |data| + 4
  {
    if |data| % 4 == 0 then data else data + Zeros(4 - |data| % 4)
  }

  /** entry_size: the bytes of a file, the entries of a folder */
  function EntrySize(n: Node): nat {
    match n
    case File(_, data) => |data|
    case Folder(_, children) => |children|
  }

  function Kind(n: Node): nat {
    if n.File? then 0 else 1
  }

  /** A word in little-endian order */
  function Word(n: nat): (w: seq<Byte>)
    requires n < WORD
    ensures |w| == 4
  {
    [n % 256, n / 256 % 256, n / 65536 % 256, n / 16777216]
  }

  /** struct.pack of an entry, which fails when a value does not fit into 32 bits */
  function Pack(kind: nat, name: nat, data: nat, size: nat): (e: Option<seq<Byte>>)
    ensures e.Some? <==> kind < WORD && name < WORD && data < WORD && size < WORD
    ensures e.Some? ==> |e.value| == ENTRY
  {
    if kind < WORD && name < WORD && data < WORD && size < WORD
    then Some(Word(kind) + Word(name) + Word(data) + Word(size)) else None
  }

  /** bin_data at an address */
  function BinData(n: Node, at: nat): Option<seq<Byte>>
    decreases n, if n.Folder? then |n.children| + 1 else 0
  {
    match n
    case File(_, data) => Some(data)
    case Folder(_, children) =>
      var b := Block(n, 0, at + ENTRY * |children|);
      if b.None? then None else Some(b.value.0 + b.value.1)
  }

  /** The entries and the payload of the children from i on, when the payload starts at v */
  function Block(n: Node, i: nat, v: nat): Option<(seq<Byte>, seq<Byte>)>
    requires n.Folder? && i <= |n.children|
    decreases n, |n.children| - i
  {
    if i == |n.children| then Some(([], [])) else
    var c := n.children[i];
    var name := BinName(c.name);
    var data := BinData(c, v + |name|);
    if data.None? then None else
    var e := Pack(Kind(c), v, v + |name|, EntrySize(c));
    var rest := Block(n, i + 1, v + |name| + |Padded(data.value)|);
    if e.None? || rest.None? then None
    else Some((e.value + rest.value.0, name + Padded(data.value) + rest.value.1))
  }

  const SLASH: seq<Byte> := [47, 0, 0, 0] // "/" and padding

  /** get_bin_data */
  function Image(tree: Node, base: nat): Option<seq<Byte>>
    requires tree.Folder?
  {
    var root := Pack(1, base + ENTRY, base + ENTRY + 4, EntrySize(tree));
    var data := BinData(tree, base + ENTRY + 4);
    if root.None? || data.None? then None else Some(root.value + SLASH + data.value)
  }

  // ---------------------------------------------------------------- reading

  function Number(b0: int, b1: int, b2: int, b3: int): (n: nat)
    requires b0 >= 0 && b1 >= 0 && b2 >= 0 && b3 >= 0
  {
    b0 + 256 * b1 + 65536 * b2 + 16777216 * b3
  }

  /** The word at address a of an image loaded at `base` */
  function WordAt(img: seq<Byte>, base: nat, a: nat): Option<nat> {
    if base <= a && a + 4 <= base + |img| then
      var k := a - base;
      Some(Number(img[k], img[k + 1], img[k + 2], img[k + 3]))
    else None
  }

  /** The bytes from address a up to the first NUL */
  function StringAt(img: seq<Byte>, base: nat, a: nat): Option<seq<Byte>>
    decreases base + |img| - a
  {
    if a < base || a >= base + |img| then None
    else if img[a - base] == 0 then Some([])
    else
      var rest := StringAt(img, base, a + 1);
      if rest.None? then None else Some([img[a - base]] + rest.value)
  }

  function BytesAt(img: seq<Byte>, base: nat, a: nat, n: nat): Option<seq<Byte>> {
    if base <= a && a + n <= base + |img| then Some(img[a - base..a - base + n]) else None
  }

  /** Following the entry at address a, down to a given depth */
  function ReadNode(img: seq<Byte>, base: nat, a: nat, depth: nat): Option<Node>
    decreases depth, 0
  {
    var kind, nameAt, dataAt, size := WordAt(img, base, a), WordAt(img, base, a + 4), WordAt(img, base, a + 8), WordAt(img, base, a + 12);
    if kind.None? || nameAt.None? || dataAt.None? || size.None? then None else
    var name := StringAt(img, base, nameAt.value);
    if name.None? then None
    else if kind.value == 0 then
      var data := BytesAt(img, base, dataAt.value, size.value);
      if data.None? then None else Some(File(name.value, data.value))
    else if kind.value == 1 && depth > 0 then
      var children := ReadNodes(img, base, dataAt.value, size.value, depth - 1);
      if children.None? then None else Some(Folder(name.value, children.value))
    else None
  }

  /** n entries one behind the other */
  function ReadNodes(img: seq<Byte>, base: nat, a: nat, n: nat, depth: nat): Option<seq<Node>>
    decreases depth, n + 1
  {
    if n == 0 then Some([]) else
    var first, rest := ReadNode(img, base, a, depth), ReadNodes(img, base, a + ENTRY, n - 1, depth);
    if first.None? || rest.None? then None else Some([first.value] + rest.value)
  }

  function Depth(n: Node): nat
    decreases n, if n.Folder? then |n.children| + 1 else 0
  {
    if n.File? then 0 else DepthFrom(n, 0)
  }

  /** One more than the deepest of the children from i on */
  function DepthFrom(n: Node, i: nat): nat
    requires n.Folder? && i <= |n.children|
    decreases n, |n.children| - i
  {
    if i == |n.children| then 1 else
    var d, rest := Depth(n.children[i]), DepthFrom(n, i + 1);
    if d + 1 > rest then d + 1 else rest
  }

  /** Names without a NUL */
  ghost predicate Named(n: Node)
    decreases n
  {
    0 !in n.name && (n.Folder? ==> forall c :: c in n.children ==> Named(c))
  }

  // ---------------------------------------------------------------- what lies where

  predicate Contains(img: seq<Byte>, base: nat, a: nat, bytes: seq<Byte>) {
    base <= a && a + |bytes| <= base + |img| && img[a - base..a - base + |bytes|] == bytes
  }

  /** The entry at address a describes the node: its words, its name, and its data or entries; names and
      data lie at multiples of four from the base. */
  ghost predicate Laid(img: seq<Byte>, base: nat, a: nat, n: Node)
    decreases n
  {
    var kind, nameAt, dataAt, size := WordAt(img, base, a), WordAt(img, base, a + 4), WordAt(img, base, a + 8), WordAt(img, base, a + 12);
    && kind == Some(Kind(n)) && size == Some(EntrySize(n)) && nameAt.Some? && dataAt.Some?
    && nameAt.value % 4 == base % 4 && dataAt.value % 4 == base % 4
    && StringAt(img, base, nameAt.value) == Some(n.name)
    && (n.File? ==> BytesAt(img, base, dataAt.value, |n.data|) == Some(n.data))
    && (n.Folder? ==> forall i :: 0 <= i < |n.children| ==> Laid(img, base, dataAt.value + ENTRY * i, n.children[i]))
  }

  lemma Part(img: seq<Byte>, base: nat, a: nat, x: seq<Byte>, y: seq<Byte>)
    requires Contains(img, base, a, x + y)
    ensures Contains(img, base, a, x) && Contains(img, base, a + |x|, y)
  {
    var k := a - base;
    var whole := img[k..k + |x + y|];
    assert whole == x + y;
    assert (x + y)[..|x|] == x && (x + y)[|x|..] == y;
    assert img[k..k + |x|] == whole[..|x|];
    assert img[k + |x|..k + |x| + |y|] == whole[|x|..];
  }

  lemma FourBytes(img: seq<Byte>, base: nat, a: nat, w: seq<Byte>)
    requires |w| == 4 && Contains(img, base, a, w)
    ensures var k := a - base; img[k] == w[0] && img[k + 1] == w[1] && img[k + 2] == w[2] && img[k + 3] == w[3]
  {
    var k := a - base;
    var s := img[k..k + 4];
    assert img[k] == s[0] && img[k + 1] == s[1] && img[k + 2] == s[2] && img[k + 3] == s[3];
  }

  lemma Digits(n: nat)
    requires n < WORD
    ensures var w := Word(n); Number(w[0], w[1], w[2], w[3]) == n
  {
    assert n / 256 / 256 == n / 65536 && n / 65536 / 256 == n / 16777216;
  }

  lemma WordRound(img: seq<Byte>, base: nat, a: nat, n: nat)
    requires n < WORD && Contains(img, base, a, Word(n))
    ensures WordAt(img, base, a) == Some(n)
  {
    hide Word, Number;
    FourBytes(img, base, a, Word(n));
    Digits(n);
  }

  lemma {:induction false} StringRound(img: seq<Byte>, base: nat, a: nat, name: seq<Byte>, pad: seq<Byte>)
    requires 0 !in name && pad != [] && pad[0] == 0 && Contains(img, base, a, name + pad)
    ensures StringAt(img, base, a) == Some(name)
    decreases name
  {
    if name == [] {
      assert img[a - base] == img[a - base..a - base + |pad|][0];
    } else {
      assert name + pad == [name[0]] + (name[1..] + pad);
      Part(img, base, a, [name[0]], name[1..] + pad);
      assert img[a - base] == img[a - base..a - base + 1][0];
      StringRound(img, base, a + 1, name[1..], pad);
      assert name[0] in name && name == [name[0]] + name[1..];
    }
  }

  lemma EntryRound(img: seq<Byte>, base: nat, a: nat, kind: nat, name: nat, data: nat, size: nat)
    requires Pack(kind, name, data, size).Some? && Contains(img, base, a, Pack(kind, name, data, size).value)
    ensures WordAt(img, base, a) == Some(kind) && WordAt(img, base, a + 4) == Some(name)
    ensures WordAt(img, base, a + 8) == Some(data) && WordAt(img, base, a + 12) == Some(size)
  {
    hide WordAt, Word;
    Part(img, base, a, Word(kind) + Word(name) + Word(data), Word(size));
    Part(img, base, a, Word(kind) + Word(name), Word(data));
    Part(img, base, a, Word(kind), Word(name));
    WordRound(img, base, a, kind);
    WordRound(img, base, a + 4, name);
    WordRound(img, base, a + 8, data);
    WordRound(img, base, a + 12, size);
  }

  /** The name and the padded data of a child, where its entry says they are */
  lemma ChildLaid(img: seq<Byte>, base: nat, at: nat, v: nat, c: Node)
    requires v % 4 == base % 4 && Named(c)
    requires Pack(Kind(c), v, v + |BinName(c.name)|, EntrySize(c)).Some?
    requires Contains(img, base, at, Pack(Kind(c), v, v + |BinName(c.name)|, EntrySize(c)).value)
    requires Contains(img, base, v, BinName(c.name))
    requires c.File? ==> Contains(img, base, v + |BinName(c.name)|, c.data)
    requires c.Folder? ==> ChildrenLaid(img, base, v + |BinName(c.name)|, c, 0)
    ensures Laid(img, base, at, c)
  {
    hide WordAt, Pack, Contains, StringAt, Named;
    EntryRound(img, base, at, Kind(c), v, v + |BinName(c.name)|, EntrySize(c));
    NameRound(img, base, v, c);
    if c.File? {
      DataRound(img, base, v + |BinName(c.name)|, c.data);
      hide BytesAt;
    }
    hide BinName;
  }

  lemma NameRound(img: seq<Byte>, base: nat, v: nat, c: Node)
    requires Named(c) && Contains(img, base, v, BinName(c.name))
    ensures StringAt(img, base, v) == Some(c.name)
  {
    hide Contains, StringAt;
    StringRound(img, base, v, c.name, Zeros(4 - |c.name| % 4));
  }

  lemma DataRound(img: seq<Byte>, base: nat, a: nat, data: seq<Byte>)
    requires Contains(img, base, a, data)
    ensures BytesAt(img, base, a, |data|) == Some(data)
  {
  }

  /** The children from i on have their entries in the row of entries at address a. */
  ghost predicate ChildrenLaid(img: seq<Byte>, base: nat, a: nat, n: Node, i: nat)
    requires n.Folder?
  {
    forall j :: i <= j < |n.children| ==> Laid(img, base, a + ENTRY * j, n.children[j])
  }

  /** A folder written at a multiple of four from the base can be read there. */
  lemma {:induction false} FolderLaid(img: seq<Byte>, base: nat, a: nat, n: Node)
    requires n.Folder? && a % 4 == base % 4 && Named(n)
    requires BinData(n, a).Some? && Contains(img, base, a, BinData(n, a).value)
    ensures ChildrenLaid(img, base, a, n, 0)
    decreases n, |n.children| + 1
  {
    hide Laid, ChildrenLaid, Contains, Block, BinData, Named;
    FolderData(n, a);
    var v := a + ENTRY * |n.children|;
    var b := Block(n, 0, v).value;
    RowAligned(base, a, |n.children|);
    BlockSize(n, 0, v);
    Part(img, base, a, b.0, b.1);
    BlockLaid(img, base, a, n, 0, v);
  }

  lemma RowAligned(base: nat, a: nat, k: nat)
    requires a % 4 == base % 4
    ensures (a + ENTRY * k) % 4 == base % 4
  {
    assert ENTRY * k == 4 * (4 * k);
  }

  lemma {:induction false} BlockSize(n: Node, i: nat, v: nat)
    requires n.Folder? && i <= |n.children| && Block(n, i, v).Some?
    ensures |Block(n, i, v).value.0| == ENTRY * (|n.children| - i)
    decreases |n.children| - i
  {
    if i < |n.children| {
      var c := n.children[i];
      BlockSize(n, i + 1, v + |BinName(c.name)| + |Padded(BinData(c, v + |BinName(c.name)|).value)|);
    }
  }

  lemma BlockStep(n: Node, i: nat, v: nat)
    requires n.Folder? && i < |n.children| && Block(n, i, v).Some?
    ensures var c := n.children[i];
      var v1 := v + |BinName(c.name)|;
      var data, e := BinData(c, v1), Pack(Kind(c), v, v1, EntrySize(c));
      && data.Some? && e.Some?
      && var rest := Block(n, i + 1, v1 + |Padded(data.value)|);
        rest.Some? && Block(n, i, v).value == (e.value + rest.value.0, BinName(c.name) + Padded(data.value) + rest.value.1)
  {
    hide BinData, Pack, BinName, Padded;
  }

  /** The pieces of a block for child i and for the children behind it */
  ghost predicate Pieces(img: seq<Byte>, base: nat, at: nat, v: nat, c: Node, data: seq<Byte>,
                         rest: (seq<Byte>, seq<Byte>), e: seq<Byte>)
  {
    && Contains(img, base, at, e) && Contains(img, base, at + |e|, rest.0)
    && Contains(img, base, v, BinName(c.name)) && Contains(img, base, v + |BinName(c.name)|, data)
    && Contains(img, base, v + |BinName(c.name)| + |Padded(data)|, rest.1)
  }

  lemma BlockParts(img: seq<Byte>, base: nat, at: nat, v: nat, c: Node, data: seq<Byte>,
                   rest: (seq<Byte>, seq<Byte>), e: seq<Byte>)
    requires Contains(img, base, at, e + rest.0) && Contains(img, base, v, BinName(c.name) + Padded(data) + rest.1)
    ensures Pieces(img, base, at, v, c, data, rest, e)
  {
    hide Contains, BinName, Padded;
    var name := BinName(c.name);
    Part(img, base, at, e, rest.0);
    assert name + Padded(data) + rest.1 == name + (Padded(data) + rest.1);
    Part(img, base, v, name, Padded(data) + rest.1);
    Part(img, base, v + |name|, Padded(data), rest.1);
    PaddedPart(img, base, v + |name|, data);
  }

  lemma {:induction false} BlockLaid(img: seq<Byte>, base: nat, a: nat, n: Node, i: nat, v: nat)
    requires n.Folder? && i <= |n.children| && v % 4 == base % 4 && Named(n)
    requires Block(n, i, v).Some?
    requires Contains(img, base, a + ENTRY * i, Block(n, i, v).value.0) && Contains(img, base, v, Block(n, i, v).value.1)
    ensures ChildrenLaid(img, base, a, n, i)
    decreases n, |n.children| - i
  {
    hide Laid, Contains, Pack, Block, BinData, BinName, Padded, Kind, EntrySize;
    if i < |n.children| {
      var c := n.children[i];
      var v1 := v + |BinName(c.name)|;
      BlockStep(n, i, v);
      var data := BinData(c, v1).value;
      var e := Pack(Kind(c), v, v1, EntrySize(c)).value;
      BlockParts(img, base, a + ENTRY * i, v, c, data, Block(n, i + 1, v1 + |Padded(data)|).value, e);
      FileData(c, v1);
      assert Named(c) by { assert c in n.children; }
      if c.Folder? { FolderLaid(img, base, v1, c); }
      ChildLaid(img, base, a + ENTRY * i, v, c);
      BlockLaid(img, base, a, n, i + 1, v1 + |Padded(data)|);
    }
  }

  lemma FileData(c: Node, at: nat)
    ensures c.File? ==> BinData(c, at) == Some(c.data)
  {
  }

  lemma PaddedPart(img: seq<Byte>, base: nat, a: nat, data: seq<Byte>)
    requires Contains(img, base, a, Padded(data))
    ensures Contains(img, base, a, data)
  {
    if |data| % 4 != 0 { Part(img, base, a, data, Zeros(4 - |data| % 4)); }
  }

  // ---------------------------------------------------------------- reading what was written

  lemma {:induction false} ReadLaid(img: seq<Byte>, base: nat, a: nat, n: Node, depth: nat)
    requires Laid(img, base, a, n) && depth >= Depth(n)
    ensures ReadNode(img, base, a, depth) == Some(n)
    decreases n, if n.Folder? then |n.children| + 1 else 0
  {
    hide WordAt, StringAt, BytesAt, ReadNodes, DepthFrom;
    if n.Folder? {
      DepthPositive(n, 0);
      var at := WordAt(img, base, a + 8).value;
      ReadChildren(img, base, at, n, 0, depth - 1);
      assert n.children[0..] == n.children;
    }
  }

  lemma {:induction false} DepthPositive(n: Node, i: nat)
    requires n.Folder? && i <= |n.children|
    ensures DepthFrom(n, i) >= 1
    decreases |n.children| - i
  {
    if i < |n.children| { DepthPositive(n, i + 1); }
  }

  lemma {:induction false} ReadChildren(img: seq<Byte>, base: nat, a: nat, n: Node, i: nat, depth: nat)
    requires n.Folder? && i <= |n.children| && ChildrenLaid(img, base, a, n, i) && depth + 1 >= DepthFrom(n, i)
    ensures ReadNodes(img, base, a + ENTRY * i, |n.children| - i, depth) == Some(n.children[i..])
    decreases n, |n.children| - i
  {
    hide Laid, ChildrenLaid, ReadNode, ReadNodes, Depth, DepthFrom;
    if i < |n.children| {
      DepthStep(n, i);
      ChildrenStep(img, base, a, n, i);
      ReadLaid(img, base, a + ENTRY * i, n.children[i], depth);
      ReadChildren(img, base, a, n, i + 1, depth);
      NodesStep(img, base, a, i, |n.children| - i, depth, n.children[i], n.children[i + 1..]);
      assert n.children[i..] == [n.children[i]] + n.children[i + 1..];
    } else {
      assert n.children[i..] == [];
      NoNodes(img, base, a + ENTRY * i, depth);
    }
  }

  lemma ChildrenStep(img: seq<Byte>, base: nat, a: nat, n: Node, i: nat)
    requires n.Folder? && i < |n.children| && ChildrenLaid(img, base, a, n, i)
    ensures Laid(img, base, a + ENTRY * i, n.children[i]) && ChildrenLaid(img, base, a, n, i + 1)
  {
    hide Laid;
  }

  lemma DepthStep(n: Node, i: nat)
    requires n.Folder? && i < |n.children|
    ensures DepthFrom(n, i) > Depth(n.children[i]) && DepthFrom(n, i) >= DepthFrom(n, i + 1)
  {
    hide Depth;
  }

  lemma NoNodes(img: seq<Byte>, base: nat, a: nat, depth: nat)
    ensures ReadNodes(img, base, a, 0, depth) == Some([])
  {
  }

  lemma NodesStep(img: seq<Byte>, base: nat, a: nat, i: nat, n: nat, depth: nat, first: Node, rest: seq<Node>)
    requires n > 0 && ReadNode(img, base, a + ENTRY * i, depth) == Some(first)
    requires ReadNodes(img, base, a + ENTRY * (i + 1), n - 1, depth) == Some(rest)
    ensures ReadNodes(img, base, a + ENTRY * i, n, depth) == Some([first] + rest)
  {
    hide ReadNode;
    assert a + ENTRY * i + ENTRY == a + ENTRY * (i + 1);
  }

  /** Following the addresses of an image from its start gives the same tree back, under the name that
      the root has in the image. */
  lemma ImageRound(tree: Node, base: nat, depth: nat)
    requires tree.Folder? && Named(tree)
    requires Image(tree, base).Some? && depth >= Depth(tree)
    ensures ReadNode(Image(tree, base).value, base, base, depth) == Some(Folder([47], tree.children))
  {
    hide Laid, ReadNode;
    var root := Folder([47], tree.children);
    ImageLaid(tree, base);
    SameDepth(tree, root, 0);
    ReadLaid(Image(tree, base).value, base, base, root, depth);
  }

  lemma {:induction false} SameDepth(n: Node, m: Node, i: nat)
    requires n.Folder? && m.Folder? && n.children == m.children && i <= |n.children|
    ensures DepthFrom(n, i) == DepthFrom(m, i)
    decreases |n.children| - i
  {
    if i < |n.children| { SameDepth(n, m, i + 1); }
  }

  /** Every name and every piece of data is where the entries say, at a multiple of four from the base. */
  lemma ImageLaid(tree: Node, base: nat)
    requires tree.Folder? && Named(tree) && Image(tree, base).Some?
    ensures Laid(Image(tree, base).value, base, base, Folder([47], tree.children))
  {
    hide Laid, BinData, Word, Contains, Pack, BinName, ChildrenLaid;
    var img, root := Image(tree, base).value, Folder([47], tree.children);
    var e := Pack(1, base + ENTRY, base + ENTRY + 4, EntrySize(tree)).value;
    var data := BinData(tree, base + ENTRY + 4).value;
    ContainsAll(img, base);
    Part(img, base, base, e + SLASH, data);
    Part(img, base, base, e, SLASH);
    RootNamed(tree);
    FolderLaid(img, base, base + ENTRY + 4, tree);
    SameChildren(img, base, base + ENTRY + 4, tree, root);
    ChildLaid(img, base, base, base + ENTRY, root);
  }

  lemma SameChildren(img: seq<Byte>, base: nat, a: nat, n: Node, m: Node)
    requires n.Folder? && m.Folder? && n.children == m.children && ChildrenLaid(img, base, a, n, 0)
    ensures ChildrenLaid(img, base, a, m, 0)
  {
    hide Laid;
  }

  lemma ContainsAll(img: seq<Byte>, base: nat)
    ensures Contains(img, base, base, img)
  {
    assert img[0..|img|] == img;
  }

  lemma RootNamed(tree: Node)
    requires tree.Folder? && Named(tree)
    ensures Named(Folder([47], tree.children)) && BinName([47]) == SLASH
  {
    assert Zeros(3) == [0, 0, 0];
  }

  // ---------------------------------------------------------------- when the image can be written

  /** The bytes a node takes, without its name */
  function Size(n: Node): nat
    decreases n, if n.Folder? then |n.children| + 1 else 0
  {
    match n
    case File(_, data) => |data|
    case Folder(_, children) => ENTRY * |children| + Payload(n, 0)
  }

  /** The bytes of the names and data of the children from i on */
  function Payload(n: Node, i: nat): nat
    requires n.Folder? && i <= |n.children|
    decreases n, |n.children| - i
  {
    if i == |n.children| then 0 else
    |BinName(n.children[i].name)| + Rounded(Size(n.children[i])) + Payload(n, i + 1)
  }

  function Rounded(n: nat): (r: nat)
    ensures n <= r < n + 4
  {
    if n % 4 == 0 then n else n + (4 - n % 4)
  }

  /** What is written at an address below the end of the address space has the size computed beforehand. */
  lemma {:induction false} Fits(n: Node, at: nat)
    requires at + Size(n) < WORD
    ensures BinData(n, at).Some? && |BinData(n, at).value| == Size(n)
    decreases n, if n.Folder? then |n.children| + 1 else 0
  {
    if n.Folder? {
      hide Payload;
      var v := at + ENTRY * |n.children|;
      BlockFits(n, 0, v);
      BlockSize(n, 0, v);
    }
  }

  lemma {:induction false} BlockFits(n: Node, i: nat, v: nat)
    requires n.Folder? && i <= |n.children| && v + Payload(n, i) < WORD && |n.children| < WORD
    ensures Block(n, i, v).Some? && |Block(n, i, v).value.1| == Payload(n, i)
    decreases n, |n.children| - i
  {
    hide BinData, Block, BinName, Padded, Size, Kind, EntrySize, Rounded;
    if i < |n.children| {
      var c := n.children[i];
      var v1 := v + |BinName(c.name)|;
      Fits(c, v1);
      ManyEntries(c);
      PaddedSize(BinData(c, v1).value);
      BlockFits(n, i + 1, v1 + |Padded(BinData(c, v1).value)|);
      BlockMake(n, i, v);
    } else {
      BlockEnd(n, v);
    }
  }

  lemma BlockEnd(n: Node, v: nat)
    requires n.Folder?
    ensures Block(n, |n.children|, v) == Some(([], []))
  {
  }

  lemma BlockMake(n: Node, i: nat, v: nat)
    requires n.Folder? && i < |n.children|
    ensures var c := n.children[i];
      var v1 := v + |BinName(c.name)|;
      var data, e := BinData(c, v1), Pack(Kind(c), v, v1, EntrySize(c));
      data.Some? && e.Some? ==>
        var rest := Block(n, i + 1, v1 + |Padded(data.value)|);
        rest.Some? ==>
          Block(n, i, v) == Some((e.value + rest.value.0, BinName(c.name) + Padded(data.value) + rest.value.1))
  {
    hide BinData, Pack, BinName, Padded;
  }

  lemma PaddedSize(data: seq<Byte>)
    ensures |Padded(data)| == Rounded(|data|)
  {
  }

  lemma ManyEntries(c: Node)
    ensures EntrySize(c) <= Size(c) && Kind(c) <= 1
  {
  }

  // ---------------------------------------------------------------- exactly when

  /** The data address of the node written last, the children of n from i on being written from v on */
  function LastFrom(n: Node, i: nat, v: nat): nat
    requires n.Folder? && i < |n.children|
    decreases n, |n.children| - i
  {
    var c := n.children[i];
    var v1 := v + |BinName(c.name)|;
    if i + 1 < |n.children| then LastFrom(n, i + 1, v1 + Rounded(Size(c)))
    else if c.Folder? && c.children != [] then LastFrom(c, 0, v1 + ENTRY * |c.children|)
    else v1
  }

  /** The number of bytes of the node written last, when that is a file */
  function LastSize(n: Node): nat
    requires n.Folder? && n.children != []
    decreases n
  {
    var c := n.children[|n.children| - 1];
    if c.File? then |c.data| else if c.children == [] then 0 else LastSize(c)
  }

  lemma {:induction false} LastIsLater(n: Node, i: nat, v: nat)
    requires n.Folder? && i < |n.children|
    ensures LastFrom(n, i, v) >= v + |BinName(n.children[i].name)|
    decreases n, |n.children| - i
  {
    hide BinName, Size;
    var c := n.children[i];
    var v1 := v + |BinName(c.name)|;
    if i + 1 < |n.children| {
      LastIsLater(n, i + 1, v1 + Rounded(Size(c)));
    } else if c.Folder? && c.children != [] {
      LastIsLater(c, 0, v1 + ENTRY * |c.children|);
    }
  }

  /** Whatever is written has the size computed beforehand. */
  lemma {:induction false} DataSize(n: Node, at: nat)
    requires BinData(n, at).Some?
    ensures |BinData(n, at).value| == Size(n)
    decreases n, if n.Folder? then |n.children| + 1 else 0
  {
    if n.Folder? {
      hide Payload, Block;
      var v := at + ENTRY * |n.children|;
      PayloadSize(n, 0, v);
      BlockSize(n, 0, v);
    }
  }

  lemma {:induction false} PayloadSize(n: Node, i: nat, v: nat)
    requires n.Folder? && i <= |n.children| && Block(n, i, v).Some?
    ensures |Block(n, i, v).value.1| == Payload(n, i)
    decreases n, |n.children| - i
  {
    hide BinData, Block, BinName, Padded, Size, Pack;
    if i < |n.children| {
      var c := n.children[i];
      var v1 := v + |BinName(c.name)|;
      BlockStep(n, i, v);
      DataSize(c, v1);
      PaddedSize(BinData(c, v1).value);
      PayloadSize(n, i + 1, v1 + |Padded(BinData(c, v1).value)|);
    } else {
      BlockEnd(n, v);
    }
  }

  /** The children can be written exactly when the node written last has its data address and its size
      below the end of the address space. */
  lemma {:induction false} BlockExists(n: Node, i: nat, v: nat)
    requires n.Folder? && i < |n.children|
    ensures Block(n, i, v).Some? <==> LastFrom(n, i, v) < WORD && LastSize(n) < WORD
    decreases n, |n.children| - i
  {
    hide BinData, Block, BinName, Padded, Size, Pack, LastFrom, LastSize;
    var c := n.children[i];
    var v1 := v + |BinName(c.name)|;
    var e := Pack(Kind(c), v, v1, EntrySize(c));
    LastIsLater(n, i, v);
    BlockSome(n, i, v);
    PackSome(Kind(c), v, v1, EntrySize(c));
    if i + 1 < |n.children| {
      LastNext(n, i, v);
      var v2 := v1 + Rounded(Size(c));
      BlockExists(n, i + 1, v2);
      LastIsLater(n, i + 1, v2);
      ManyEntries(c);
      if v2 < WORD { Fits(c, v1); }
      if BinData(c, v1).Some? { DataSize(c, v1); PaddedSize(BinData(c, v1).value); }
    } else {
      if BinData(c, v1).Some? { BlockEnd(n, v1 + |Padded(BinData(c, v1).value)|); }
      LastHere(n, v);
      if c.Folder? && c.children != [] {
        BlockExists(c, 0, v1 + ENTRY * |c.children|);
        LastIsLater(c, 0, v1 + ENTRY * |c.children|);
      }
      DataExists(c, v1);
    }
  }

  lemma PackSome(kind: nat, name: nat, data: nat, size: nat)
    ensures Pack(kind, name, data, size).Some? <==> kind < WORD && name < WORD && data < WORD && size < WORD
  {
  }

  lemma BlockSome(n: Node, i: nat, v: nat)
    requires n.Folder? && i < |n.children|
    ensures var c := n.children[i];
      var v1 := v + |BinName(c.name)|;
      Block(n, i, v).Some? <==>
        && BinData(c, v1).Some? && Pack(Kind(c), v, v1, EntrySize(c)).Some?
        && Block(n, i + 1, v1 + |Padded(BinData(c, v1).value)|).Some?
  {
    hide BinData, Pack, BinName, Padded;
  }

  lemma LastNext(n: Node, i: nat, v: nat)
    requires n.Folder? && i + 1 < |n.children|
    ensures var c := n.children[i];
      LastFrom(n, i, v) == LastFrom(n, i + 1, v + |BinName(c.name)| + Rounded(Size(c)))
  {
    hide BinName, Size, Rounded;
  }

  lemma LastHere(n: Node, v: nat)
    requires n.Folder? && n.children != []
    ensures var c := n.children[|n.children| - 1];
      var v1 := v + |BinName(c.name)|;
      && LastFrom(n, |n.children| - 1, v) == (if c.Folder? && c.children != [] then LastFrom(c, 0, v1 + ENTRY * |c.children|) else v1)
      && LastSize(n) == if c.File? then |c.data| else if c.children == [] then 0 else LastSize(c)
  {
    hide BinName;
  }

  /** A file and an empty folder can always be laid out, another folder when its children can. */
  lemma DataExists(c: Node, at: nat)
    ensures c.File? ==> BinData(c, at).Some?
    ensures c.Folder? ==> (BinData(c, at).Some? <==> Block(c, 0, at + ENTRY * |c.children|).Some?)
    ensures c.Folder? && c.children == [] ==> BinData(c, at).Some?
  {
    hide Block;
    if c.Folder? && c.children == [] { BlockEnd(c, at); }
  }

  /** A tree gets an image exactly when the root's data address and the node written last, with its data
      address and its size, lie below the end of the address space; the image has the size computed
      beforehand, and the same tree is read back from it. */
  lemma EveryTree(tree: Node, base: nat, depth: nat)
    requires tree.Folder? && Named(tree) && depth >= Depth(tree)
    ensures var img := Image(tree, base);
      && (img.Some? <==>
            && base + ENTRY + 4 < WORD
            && (tree.children != [] ==>
                  LastFrom(tree, 0, base + ENTRY + 4 + ENTRY * |tree.children|) < WORD && LastSize(tree) < WORD))
      && (img.Some? ==>
            && |img.value| == ENTRY + 4 + Size(tree)
            && ReadNode(img.value, base, base, depth) == Some(Folder([47], tree.children)))
  {
    hide BinData, Block, Depth, Named, LastFrom, LastSize, ReadNode, BinName, Size, Pack;
    var at := base + ENTRY + 4;
    PackSome(1, base + ENTRY, at, EntrySize(tree));
    DataExists(tree, at);
    if tree.children != [] {
      BlockExists(tree, 0, at + ENTRY * |tree.children|);
      LastIsLater(tree, 0, at + ENTRY * |tree.children|);
    }
    if Image(tree, base).Some? {
      DataSize(tree, at);
      ImageRound(tree, base, depth);
    }
  }

  // ---------------------------------------------------------------- the writer

  /** bin_data of a file or a folder */
  method WriteData(n: Node, base: nat) returns (b: Option<seq<Byte>>)
    ensures b == BinData(n, base)
    decreases n, 1
  {
    if n.File? {
      return Some(n.data);
    }
    FolderData(n, base);
    b := WriteFolder(n, base);
  }

  /** The loop of Folder.bin_data */
  method WriteFolder(n: Node, base: nat) returns (b: Option<seq<Byte>>)
    requires n.Folder?
    ensures var f := Block(n, 0, base + ENTRY * |n.children|); b == if f.None? then None else Some(f.value.0 + f.value.1)
    decreases n, 0
  {
    hide Pack, BinName, Padded, BinData, Block, Joined, Kind, EntrySize;
    var at: nat := base + ENTRY * |n.children|;
    var v: nat := at;
    var entries: seq<Byte>, payload: seq<Byte> := [], [];
    var i := 0;
    JoinedStart(Block(n, 0, at));
    while i < |n.children|
      invariant 0 <= i <= |n.children|
      invariant Block(n, 0, at) == Joined(entries, payload, Block(n, i, v))
    {
      var c := n.children[i];
      var name := BinName(c.name);
      var nameAt := v;
      BlockUnfold(n, i, nameAt, entries, payload);
      v := v + |name|;
      var data := WriteData(c, v);
      if data == None {
        return None;
      }
      var dataAt := v;
      var padded := Padded(data.value);
      v := v + |padded|;
      var e := Pack(Kind(c), nameAt, dataAt, EntrySize(c));
      if e == None {
        return None;
      }
      entries, payload := entries + e.value, payload + (name + padded);
      i := i + 1;
    }
    JoinedEnd(n, v, entries, payload);
    b := Some(entries + payload);
  }

  lemma FolderData(n: Node, base: nat)
    requires n.Folder?
    ensures var b := Block(n, 0, base + ENTRY * |n.children|);
      BinData(n, base) == if b.None? then None else Some(b.value.0 + b.value.1)
  {
    hide Block;
  }

  lemma JoinedStart(rest: Option<(seq<Byte>, seq<Byte>)>)
    ensures Joined([], [], rest) == rest
  {
    if rest.Some? { assert [] + rest.value.0 == rest.value.0 && [] + rest.value.1 == rest.value.1; }
  }

  lemma JoinedEnd(n: Node, v: nat, entries: seq<Byte>, payload: seq<Byte>)
    requires n.Folder?
    ensures Joined(entries, payload, Block(n, |n.children|, v)) == Some((entries, payload))
  {
    assert entries + [] == entries && payload + [] == payload;
  }

  /** One round of the writer */
  lemma BlockUnfold(n: Node, i: nat, v: nat, entries: seq<Byte>, payload: seq<Byte>)
    requires n.Folder? && i < |n.children|
    ensures var c := n.children[i];
      var v1 := v + |BinName(c.name)|;
      var data, e := BinData(c, v1), Pack(Kind(c), v, v1, EntrySize(c));
      Joined(entries, payload, Block(n, i, v)) ==
      if data.None? || e.None? then None
      else Joined(entries + e.value, payload + (BinName(c.name) + Padded(data.value)),
                  Block(n, i + 1, v1 + |Padded(data.value)|))
  {
    hide BinData, Pack, BinName, Padded, Kind, EntrySize;
    var c := n.children[i];
    var v1 := v + |BinName(c.name)|;
    var data, e := BinData(c, v1), Pack(Kind(c), v, v1, EntrySize(c));
    if data.Some? && e.Some? {
      var name, padded := BinName(c.name), Padded(data.value);
      var rest := Block(n, i + 1, v1 + |padded|);
      if rest.Some? {
        assert entries + (e.value + rest.value.0) == entries + e.value + rest.value.0;
        assert payload + (name + padded + rest.value.1) == payload + (name + padded) + rest.value.1;
      }
    }
  }

  /** What has been written, followed by the rest */
  function Joined(entries: seq<Byte>, payload: seq<Byte>, rest: Option<(seq<Byte>, seq<Byte>)>): Option<(seq<Byte>, seq<Byte>)> {
    if rest.None? then None else Some((entries + rest.value.0, payload + rest.value.1))
  }

  /** get_bin_data */
  method WriteImage(tree: Node, base: nat) returns (b: Option<seq<Byte>>)
    requires tree.Folder?
    ensures b == Image(tree, base)
  {
    var v := base + ENTRY;
    var nameAt := v;
    v := v + |SLASH|;
    var root := Pack(1, nameAt, v, EntrySize(tree));
    var data := WriteData(tree, v);
    b := if root == None || data == None then None else Some(root.value + SLASH + data.value);
  }
}
