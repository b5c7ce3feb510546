/** Virtual nodes, and the children of one DOM parent as a sequence of element ids. */
module VDom {
  import opened Sequences
  import opened Wrappers

  type Elm = nat
  type Key = string

  datatype Attrs = Attrs(inputType: Option<string>)
  datatype VData = VData(attrs: Option<Attrs>)
  datatype Factory = Factory(id: nat, failed: bool)

  datatype VNode = VNode(
    key: Option<Key>,
    tag: Option<string>,
    isComment: bool,
    data: Option<VData>,
    isAsyncPlaceholder: bool,
    asyncFactory: Option<Factory>,
    elm: Option<Elm>)

  // ---------- sameVnode ----------

  /** What `data && data.attrs && attrs.type` can be: false, undefined or a string. */
  datatype InputType = NoAttrs | NoType | Type(name: string)

  function TypeOf(v: VNode): InputType {
    if v.data.None? || v.data.value.attrs.None? then NoAttrs
    else if v.data.value.attrs.value.inputType.None? then NoType
    else Type(v.data.value.attrs.value.inputType.value)
  }

  predicate IsTextInputType(t: InputType) {
    t.Type? && t.name in {"text", "number", "password", "search", "email", "tel", "url"}
  }

  predicate SameInputType(a: VNode, b: VNode) {
    a.tag != Some("input") || TypeOf(a) == TypeOf(b) || (IsTextInputType(TypeOf(a)) && IsTextInputType(TypeOf(b)))
  }

  predicate SameVnode(a: VNode, b: VNode) {
    && a.key == b.key
    && (|| (a.tag == b.tag && a.isComment == b.isComment && a.data.Some? == b.data.Some? && SameInputType(a, b))
        || (a.isAsyncPlaceholder && a.asyncFactory == b.asyncFactory && b.asyncFactory.Some?
            && !b.asyncFactory.value.failed))
  }

  /** sameVnode does not look at elements: it gives the same answer before and after patching. */
  lemma SameVnodeIgnoresElm(a: VNode, b: VNode, x: Option<Elm>, y: Option<Elm>)
    ensures SameVnode(a.(elm := x), b.(elm := y)) == SameVnode(a, b)
  {
    assert TypeOf(a.(elm := x)) == TypeOf(a) && TypeOf(b.(elm := y)) == TypeOf(b);
  }

  /**
   What sameVnode goes by: key, tag, comment or not, data or none, and for an input its type, text types all alike.
   */
  datatype Kind = Kind(key: Option<Key>, tag: Option<string>, isComment: bool, hasData: bool, input: Option<InputType>)

  function KindOf(v: VNode): Kind {
    Kind(v.key, v.tag, v.isComment, v.data.Some?,
        if v.tag != Some("input") then None
        else if IsTextInputType(TypeOf(v)) then Some(Type("text")) else Some(TypeOf(v)))
  }

  /** Apart from async placeholders, sameVnode accepts exactly the pairs of one kind: it is an equivalence. */
  lemma SameVnodeByKind(a: VNode, b: VNode)
    requires !a.isAsyncPlaceholder
    ensures SameVnode(a, b) <==> KindOf(a) == KindOf(b)
  {
    if a.tag == b.tag == Some("input") {
      assert IsTextInputType(Type("text"));
    }
  }

  // ---------- The DOM ----------

  ghost predicate Distinct<T(!new)>(s: seq<T>) {
    forall x :: multiset(s)[x] <= 1
  }

  /** Puts x in front of the first occurrence of `anchor`, at the end if there is none. */
  function InFrontOf(s: seq<Elm>, x: Elm, anchor: Elm): seq<Elm> {
    if s == [] then [x]
    else if s[0] == anchor then [x] + s
    else [s[0]] + InFrontOf(s[1..], x, anchor)
  }

  /** insertBefore: an element that is already a child is moved; a null reference appends. */
  function InsertBefore(s: seq<Elm>, x: Elm, anchor: Option<Elm>): seq<Elm> {
    if anchor.Some? then InFrontOf(Without(s, x), x, anchor.value) else Without(s, x) + [x]
  }

  function NextSibling(s: seq<Elm>, x: Elm): Option<Elm> {
    if |s| < 2 then None
    else if s[0] == x then Some(s[1])
    else NextSibling(s[1..], x)
  }

  lemma {:induction false} WithoutAt(p: seq<Elm>, x: Elm, q: seq<Elm>)
    requires x !in p
    ensures Without(p + [x] + q, x) == p + q
  {
    if p == [] {
      assert [] + [x] + q == [x] + q;
    } else {
      assert (p + [x] + q)[1..] == p[1..] + [x] + q;
      WithoutAt(p[1..], x, q);
    }
  }

  lemma {:induction false} InFrontOfAt(p: seq<Elm>, x: Elm, anchor: Elm, q: seq<Elm>)
    requires anchor !in p
    ensures InFrontOf(p + [anchor] + q, x, anchor) == p + [x] + [anchor] + q
  {
    if p == [] {
      assert [] + [anchor] + q == [anchor] + q;
    } else {
      assert (p + [anchor] + q)[1..] == p[1..] + [anchor] + q;
      InFrontOfAt(p[1..], x, anchor, q);
    }
  }

  lemma {:induction false} NextSiblingAt(p: seq<Elm>, x: Elm, q: seq<Elm>)
    requires x !in p
    ensures NextSibling(p + [x] + q, x) == if q == [] then None else Some(q[0])
  {
    if p == [] {
      assert [] + [x] + q == [x] + q;
    } else {
      assert (p + [x] + q)[1..] == p[1..] + [x] + q;
      NextSiblingAt(p[1..], x, q);
    }
  }

  lemma DistinctParts(p: seq<Elm>, x: Elm, q: seq<Elm>)
    requires Distinct(p + [x] + q)
    ensures x !in p && x !in q
  {
    assert multiset(p + [x] + q)[x] == multiset(p)[x] + 1 + multiset(q)[x];
  }

  lemma DistinctAdd(p: seq<Elm>, x: Elm, q: seq<Elm>)
    requires Distinct(p + q) && x !in p && x !in q
    ensures Distinct(p + [x] + q)
  {
    assert multiset(p + [x] + q) == multiset(p + q) + multiset{x};
    assert x !in multiset(p + q);
  }

  lemma InsertAt(p: seq<Elm>, x: Elm, head: Elm, rest: seq<Elm>)
    requires head !in p
    ensures InFrontOf(p + ([head] + rest), x, head) == p + [x] + ([head] + rest)
  {
    InFrontOfAt(p, x, head, rest);
    assert p + ([head] + rest) == p + [head] + rest;
    assert p + [x] + ([head] + rest) == p + [x] + [head] + rest;
  }

  /** A new element goes in before whatever q starts with, or at the end. */
  lemma InsertNew(p: seq<Elm>, x: Elm, q: seq<Elm>)
    requires Distinct(p + q) && x !in p && x !in q
    ensures InsertBefore(p + q, x, if q == [] then None else Some(q[0])) == p + [x] + q
    ensures Distinct(p + [x] + q)
  {
    WithoutAbsent(p + q, x);
    DistinctAdd(p, x, q);
    if q != [] {
      var head, rest := q[0], q[1..];
      assert q == [head] + rest;
      assert head !in p by {
        assert p + q == p + [head] + rest;
        DistinctParts(p, head, rest);
      }
      InsertAt(p, x, head, rest);
    }
  }

  /** Moving a child away from between p and q, to where t meets r. */
  lemma MoveTo(p: seq<Elm>, x: Elm, q: seq<Elm>, t: seq<Elm>, r: seq<Elm>)
    requires Distinct(p + [x] + q) && p + q == t + r
    ensures InsertBefore(p + [x] + q, x, if r == [] then None else Some(r[0])) == t + [x] + r
    ensures Distinct(t + [x] + r) && multiset(t + [x] + r) == multiset(p + [x] + q)
  {
    DistinctParts(p, x, q);
    WithoutAt(p, x, q);
    assert x !in t + r;
    assert multiset(p + [x] + q) == multiset(p + q) + multiset{x};
    assert Distinct(t + r) by {
      forall y ensures multiset(t + r)[y] <= 1 {
        assert multiset(p + [x] + q)[y] <= 1;
      }
    }
    WithoutAbsent(t + r, x);
    InsertNew(t, x, r);
    assert multiset(t + [x] + r) == multiset(t + r) + multiset{x};
  }
}
