/** normalizeArrayChildren: nested children flattened, adjacent text merged, default keys given. */
module NormalizeChildren {
  import opened Numerals
  import opened Sequences
  import opened Wrappers

  /** A vnode; `id` stands for everything the normalisation does not look at. */
  datatype VNode = VNode(id: int, tag: Option<string>, text: Option<string>, isComment: bool, key: Option<string>)

  /** What a render function may return among its children. Numbers are their decimal texts. */
  datatype Child =
    | Undefined
    | Boolean(b: bool)
    | Primitive(text: string)
    | Node(v: VNode)
    | Nested(items: seq<Child>, isVList: bool)

  predicate IsText(v: VNode) { v.text.Some? && !v.isComment }

  predicate EndsInText(res: seq<VNode>) { res != [] && IsText(res[|res| - 1]) }

  const PLAIN_ID := 0

  function TextNode(text: string): VNode { VNode(PLAIN_ID, None, Some(text), false, None) }

  // ---------- Default keys ----------

  function Deeper(nestedIndex: Option<string>, i: nat): string {
    (if nestedIndex.Some? then nestedIndex.value else "") + "_" + Decimal(i)
  }

  function DefaultKey(nestedIndex: string, i: nat): string { "__vlist" + nestedIndex + "_" + Decimal(i) + "__" }

  function WithKey(v: VNode, isVList: bool, nestedIndex: Option<string>, i: nat): VNode {
    if isVList && v.tag.Some? && v.key.None? && nestedIndex.Some? then v.(key := Some(DefaultKey(nestedIndex.value, i)))
       else v
  }

  // ---------- The result, child by child ----------

  function Merged(res: seq<VNode>, text: string): seq<VNode>
    requires EndsInText(res)
  {
    res[|res| - 1 := TextNode(res[|res| - 1].text.value + text)]
  }

  function Joined(res: seq<VNode>, more: seq<VNode>): seq<VNode> {
    if more != [] && IsText(more[0]) && EndsInText(res) then Merged(res, more[0].text.value) + more[1..] else res + more
  }

  /** One child added; `more` is what a nested list comes to by itself. */
  function Added(res: seq<VNode>, c: Child, more: seq<VNode>, isVList: bool, nestedIndex: Option<string>,
                 i: nat): seq<VNode> {
    match c
    case Undefined => res
    case Boolean(_) => res
    case Nested(items, _) => if items == [] then res else Joined(res, more)
    case Primitive(t) => if EndsInText(res) then Merged(res, t) else if t != "" then res + [TextNode(t)] else res
    case Node(v) =>
      if IsText(v) && EndsInText(res) then Merged(res, v.text.value) else res + [WithKey(v, isVList, nestedIndex, i)]
  }

  /** What the first n children come to. */
  function Normalized(children: seq<Child>, isVList: bool, nestedIndex: Option<string>, n: nat): seq<VNode>
    requires n <= |children|
    decreases children, n
  {
    if n == 0 then []
    else
      var c := children[n - 1];
      Added(Normalized(children, isVList, nestedIndex, n - 1), c,
            if c.Nested? then Normalized(c.items, c.isVList, Some(Deeper(nestedIndex, n - 1)), |c.items|) else [],
            isVList, nestedIndex, n - 1)
  }

  method NormalizeArrayChildren(children: seq<Child>, isVList: bool, nestedIndex: Option<string>)
    returns (res: seq<VNode>)
    ensures res == Normalized(children, isVList, nestedIndex, |children|)
    decreases children
  {
    res := [];
    for i := 0 to |children|
      invariant res == Normalized(children, isVList, nestedIndex, i)
    {
      var c := children[i];
      var last := |res| - 1;
      match c {
        case Undefined =>
        case Boolean(_) =>
        case Nested(items, v) =>
          if |items| > 0 {
            var more := NormalizeArrayChildren(items, v, Some(Deeper(nestedIndex, i)));
            if |more| > 0 && IsText(more[0]) && |res| > 0 && IsText(res[last]) {
              res := res[last := TextNode(res[last].text.value + more[0].text.value)];
              more := more[1..];
            }
            res := res + more;
          }
        case Primitive(t) =>
          if |res| > 0 && IsText(res[last]) {
            res := res[last := TextNode(res[last].text.value + t)];
          } else if t != "" {
            res := res + [TextNode(t)];
          }
        case Node(v) =>
          if IsText(v) && |res| > 0 && IsText(res[last]) {
            res := res[last := TextNode(res[last].text.value + v.text.value)];
          } else {
            res := res + [WithKey(v, isVList, nestedIndex, i)];
          }
      }
    }
  }

  // ---------- Content ----------

  /** Content as a reader of the page sees it: characters, and the vnodes between them. */
  datatype Piece = Letter(c: char) | Whole(v: VNode)

  function Letters(text: string): seq<Piece> {
    seq(|text|, i requires 0 <= i < |text| => Letter(text[i]))
  }

  function Pieces(v: VNode): seq<Piece> {
    if IsText(v) then Letters(v.text.value) else [Whole(v)]
  }

  function Content(res: seq<VNode>): seq<Piece> {
    if res == [] then [] else Content(res[..|res| - 1]) + Pieces(res[|res| - 1])
  }

  /** One child's part: nothing for undefined, null and booleans, nesting without effect. */
  function Part(c: Child, inner: seq<Piece>, isVList: bool, nestedIndex: Option<string>, i: nat): seq<Piece> {
    match c
    case Undefined => []
    case Boolean(_) => []
    case Primitive(t) => Letters(t)
    case Node(v) => Pieces(WithKey(v, isVList, nestedIndex, i))
    case Nested(_, _) => inner
  }

  /** What the first n children mean. */
  function Meaning(children: seq<Child>, isVList: bool, nestedIndex: Option<string>, n: nat): seq<Piece>
    requires n <= |children|
    decreases children, n
  {
    if n == 0 then []
    else
      var c := children[n - 1];
      Meaning(children, isVList, nestedIndex, n - 1) +
      Part(c, if c.Nested? then Meaning(c.items, c.isVList, Some(Deeper(nestedIndex, n - 1)), |c.items|) else [],
           isVList, nestedIndex, n - 1)
  }

  lemma LettersConcat(a: string, b: string)
    ensures Letters(a + b) == Letters(a) + Letters(b)
  {
  }

  lemma ContentOfOne(res: seq<VNode>, v: VNode)
    ensures Content(res + [v]) == Content(res) + Pieces(v)
  {
    assert (res + [v])[..|res|] == res;
  }

  lemma {:induction false} ContentConcat(a: seq<VNode>, b: seq<VNode>)
    ensures Content(a + b) == Content(a) + Content(b)
  {
    if b == [] {
      assert a + b == a;
    } else {
      var n := |b| - 1;
      assert a + b == (a + b[..n]) + [b[n]];
      ContentConcat(a, b[..n]);
      ContentOfOne(a + b[..n], b[n]);
      Regroup(Content(a), Content(b[..n]), Pieces(b[n]));
    }
  }

  lemma MergedContent(res: seq<VNode>, text: string)
    requires EndsInText(res)
    ensures Content(Merged(res, text)) == Content(res) + Letters(text)
  {
    var n := |res| - 1;
    assert Merged(res, text)[..n] == res[..n];
    LettersConcat(res[n].text.value, text);
  }

  lemma ContentOfSingle(v: VNode)
    ensures Content([v]) == Pieces(v)
  {
    ContentOfOne([], v);
    assert [] + [v] == [v] && Content([]) == [] && [] + Pieces(v) == Pieces(v);
  }

  lemma HeadContent(more: seq<VNode>)
    requires more != []
    ensures Content(more) == Pieces(more[0]) + Content(more[1..])
  {
    assert more == [more[0]] + more[1..];
    ContentConcat([more[0]], more[1..]);
    ContentOfSingle(more[0]);
  }

  lemma JoinedContent(res: seq<VNode>, more: seq<VNode>)
    ensures Content(Joined(res, more)) == Content(res) + Content(more)
  {
    if more != [] && IsText(more[0]) && EndsInText(res) {
      MergedContent(res, more[0].text.value);
      ContentConcat(Merged(res, more[0].text.value), more[1..]);
      HeadContent(more);
      Regroup(Content(res), Pieces(more[0]), Content(more[1..]));
    } else {
      ContentConcat(res, more);
    }
  }

  lemma AddedContent(res: seq<VNode>, c: Child, more: seq<VNode>, inner: seq<Piece>, isVList: bool,
                     nestedIndex: Option<string>, i: nat)
    requires c.Nested? ==> Content(more) == inner && (c.items == [] ==> inner == [])
    ensures Content(Added(res, c, more, isVList, nestedIndex, i)) ==
            Content(res) + Part(c, inner, isVList, nestedIndex, i)
  {
    match c
    case Undefined =>
    case Boolean(_) =>
    case Primitive(t) =>
      if EndsInText(res) {
        MergedContent(res, t);
      } else if t != "" {
        ContentOfOne(res, TextNode(t));
      }
    case Node(v) =>
      WithKeyIsText(v, isVList, nestedIndex, i);
      if IsText(v) && EndsInText(res) {
        MergedContent(res, v.text.value);
      } else {
        ContentOfOne(res, WithKey(v, isVList, nestedIndex, i));
      }
    case Nested(items, v) =>
      if items != [] {
        JoinedContent(res, more);
      }
  }

  lemma WithKeyIsText(v: VNode, isVList: bool, nestedIndex: Option<string>, i: nat)
    ensures IsText(WithKey(v, isVList, nestedIndex, i)) == IsText(v)
            && WithKey(v, isVList, nestedIndex, i).text == v.text
  {
  }

  /** The result shows exactly what the children mean. */
  lemma {:induction false} ContentIsKept(children: seq<Child>, isVList: bool, nestedIndex: Option<string>, n: nat)
    requires n <= |children|
    ensures Content(Normalized(children, isVList, nestedIndex, n)) == Meaning(children, isVList, nestedIndex, n)
    decreases children, n
  {
    if n > 0 {
      var res, c := Normalized(children, isVList, nestedIndex, n - 1), children[n - 1];
      ContentIsKept(children, isVList, nestedIndex, n - 1);
      if c.Nested? {
        var deeper := Some(Deeper(nestedIndex, n - 1));
        ContentIsKept(c.items, c.isVList, deeper, |c.items|);
        AddedContent(res, c, Normalized(c.items, c.isVList, deeper, |c.items|),
            Meaning(c.items, c.isVList, deeper, |c.items|), isVList, nestedIndex, n - 1);
      } else {
        AddedContent(res, c, [], [], isVList, nestedIndex, n - 1);
      }
    }
  }

  // ---------- No two texts side by side ----------

  ghost predicate TextsApart(res: seq<VNode>) {
    forall i | 0 < i < |res| :: !(IsText(res[i - 1]) && IsText(res[i]))
  }

  lemma JoinedApart(res: seq<VNode>, more: seq<VNode>)
    requires TextsApart(res) && TextsApart(more)
    ensures TextsApart(Joined(res, more))
  {
    var r := Joined(res, more);
    var merges := more != [] && IsText(more[0]) && EndsInText(res);
    forall i | 0 < i < |r| ensures !(IsText(r[i - 1]) && IsText(r[i])) {
      if i > |res| {
        var k := if merges then i - |res| + 1 else i - |res|;
        assert r[i] == more[k] && r[i - 1] == more[k - 1];
      } else if i < |res| {
        assert IsText(r[i]) == IsText(res[i]) && IsText(r[i - 1]) == IsText(res[i - 1]);
      } else if merges {
        assert r[i] == more[1];
      }
    }
  }

  lemma {:induction false} TextsAreApart(children: seq<Child>, isVList: bool, nestedIndex: Option<string>, n: nat)
    requires n <= |children|
    ensures TextsApart(Normalized(children, isVList, nestedIndex, n))
    decreases children, n
  {
    if n > 0 {
      TextsAreApart(children, isVList, nestedIndex, n - 1);
      match children[n - 1]
      case Nested(items, v) =>
        TextsAreApart(items, v, Some(Deeper(nestedIndex, n - 1)), |items|);
        JoinedApart(Normalized(children, isVList, nestedIndex, n - 1),
            Normalized(items, v, Some(Deeper(nestedIndex, n - 1)), |items|));
      case _ =>
    }
  }
}
