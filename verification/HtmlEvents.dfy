/** The parser's two stacks and the events it emits, as values: what each operation does and what all of them keep. */
module HtmlEvents {
  import opened Wrappers

  type Tag = string

  datatype Event = Start(tag: Tag, unary: bool) | End(tag: Tag) | Chars(text: string) | Comment(text: string)

  /** `stack` and `lastTag` are parseHTML's, `elements` is the stack of parse, fed by the events. */
  datatype Parse = Parse(stack: seq<Tag>, lastTag: Option<Tag>, elements: seq<Tag>, events: seq<Event>)

  const NOTHING := Parse([], None, [], [])

  // ---------- The tables ----------

  const UNARY := {"area", "base", "br", "col", "embed", "frame", "hr", "img", "input", "isindex", "keygen",
                  "link", "meta", "param", "source", "track", "wbr"}

  const LEFT_OPEN := {"colgroup", "dd", "dt", "li", "options", "p", "td", "tfoot", "th", "thead", "tr", "source"}

  const NON_PHRASING := {"address", "article", "aside", "base", "blockquote", "body", "caption", "col", "colgroup",
                         "dd", "details", "dialog", "div", "dl", "dt", "fieldset", "figcaption", "figure", "footer",
                         "form", "h1", "h2", "h3", "h4", "h5", "h6", "head", "header", "hgroup", "hr", "html",
                         "legend", "li", "menuitem", "meta", "optgroup", "option", "param", "rp", "rt", "source",
                         "style", "summary", "tbody", "td", "tfoot", "th", "thead", "title", "tr", "track"}

  const PLAIN_TEXT := {"script", "style", "textarea"}

  const IGNORE_NEWLINE := {"pre", "textarea"}

  function LowerChar(c: char): char {
    if 'A' <= c <= 'Z' then c - 'A' + 'a' else c
  }

  function Lower(s: string): string {
    seq(|s|, i requires 0 <= i < |s| => LowerChar(s[i]))
  }

  // ---------- Nesting ----------

  /** The open elements after the events, None if an end does not match the innermost open element. */
  function Nest(events: seq<Event>): Option<seq<Tag>> {
    if events == [] then Some([])
    else
      var before, e := Nest(events[..|events| - 1]), events[|events| - 1];
      if before.None? then None
      else
        match e
        case Start(tag, unary) => if unary then before else Some(before.value + [tag])
        case End(tag) =>
          var open := before.value;
          if open != [] && open[|open| - 1] == tag then Some(open[..|open| - 1]) else None
        case _ => before
  }

  lemma NestOn(events: seq<Event>, e: Event)
    requires Nest(events).Some?
    ensures var open := Nest(events).value;
            Nest(events + [e]) ==
            match e
            case Start(tag, unary) => if unary then Some(open) else Some(open + [tag])
            case End(tag) => if open != [] && open[|open| - 1] == tag then Some(open[..|open| - 1]) else None
            case _ => Some(open)
  {
    assert (events + [e])[..|events|] == events;
  }

  function Top(stack: seq<Tag>): Option<Tag> {
    if stack == [] then None else Some(stack[|stack| - 1])
  }

  // ---------- What parse does with the events ----------

  function Emit(p: Parse, e: Event): Parse
    requires e.End? ==> p.elements != []
  {
    p.(events := p.events + [e],
       elements := match e
                   case Start(tag, unary) => if unary then p.elements else p.elements + [tag]
                   case End(_) => p.elements[..|p.elements| - 1]
                   case _ => p.elements)
  }

  /** The events are well nested, and parse's stack holds what they leave open. */
  ghost predicate Nested(p: Parse) {
    Nest(p.events) == Some(p.elements)
  }

  lemma EmitKeeps(p: Parse, e: Event)
    requires Nested(p) && (e.End? ==> Top(p.elements) == Some(e.tag))
    ensures Nested(Emit(p, e))
  {
    NestOn(p.events, e);
  }

  // ---------- The invariant ----------

  /** `lastTag` is the top of the stack, and parse's stack mirrors it. */
  ghost predicate Good(p: Parse) {
    p.lastTag == Top(p.stack) && p.elements == p.stack && Nested(p)
  }

  /** Nothing that ends a paragraph stands directly in a p, no self-closing element directly in its own kind. */
  predicate MayHold(outer: Tag, inner: Tag) {
    !(outer == "p" && inner in NON_PHRASING) && !(inner in LEFT_OPEN && outer == inner)
  }

  ghost predicate Placed(stack: seq<Tag>) {
    forall i | 0 < i < |stack| :: MayHold(stack[i - 1], stack[i])
  }

  // ---------- parseEndTag ----------

  /** The innermost open element with the name, upper and lower case alike, -1 if there is none. */
  function Closest(stack: seq<Tag>, name: Tag): (pos: int)
    ensures -1 <= pos < |stack|
    ensures pos >= 0 ==> Lower(stack[pos]) == Lower(name)
    ensures forall k | pos < k < |stack| :: Lower(stack[k]) != Lower(name)
  {
    if stack == [] then -1
    else if Lower(stack[|stack| - 1]) == Lower(name) then |stack| - 1
    else Closest(stack[..|stack| - 1], name)
  }

  /** End events from the top of the stack down to `pos`, and the stack cut there. */
  function EndsDown(p: Parse, pos: nat, i: nat): Parse
    requires pos <= i <= |p.stack| && i - pos <= |p.elements|
    decreases i - pos
  {
    if i == pos then p else EndsDown(Emit(p, End(p.stack[i - 1])), pos, i - 1)
  }

  function CloseTo(p: Parse, pos: nat): Parse
    requires pos <= |p.stack| == |p.elements|
  {
    var q := EndsDown(p, pos, |p.stack|);
    q.(stack := p.stack[..pos], lastTag := Top(p.stack[..pos]))
  }

  function EndTag(p: Parse, name: Option<Tag>): Parse
    requires |p.stack| == |p.elements|
  {
    if name.None? then CloseTo(p, 0)
    else
      var pos := Closest(p.stack, name.value);
      if pos >= 0 then CloseTo(p, pos)
      else if Lower(name.value) == "br" then Emit(p, Start(name.value, true))
      else if Lower(name.value) == "p" then Emit(Emit(p, Start(name.value, false)), End(name.value))
      else p
  }

  lemma {:induction false} EndsDownKeeps(p: Parse, pos: nat, i: nat)
    requires pos <= i <= |p.stack| && p.elements == p.stack[..i] && Nested(p)
    ensures var q := EndsDown(p, pos, i);
            Nested(q) && q.elements == p.stack[..pos] && q.stack == p.stack && q.lastTag == p.lastTag
    decreases i - pos
  {
    if i > pos {
      EmitKeeps(p, End(p.stack[i - 1]));
      assert p.stack[..i][..i - 1] == p.stack[..i - 1];
      EndsDownKeeps(Emit(p, End(p.stack[i - 1])), pos, i - 1);
    }
  }

  lemma CloseToKeeps(p: Parse, pos: nat)
    requires Good(p) && pos <= |p.stack|
    ensures Good(CloseTo(p, pos)) && CloseTo(p, pos).stack == p.stack[..pos]
  {
    assert p.stack[..|p.stack|] == p.stack;
    EndsDownKeeps(p, pos, |p.stack|);
  }

  lemma EndTagKeeps(p: Parse, name: Option<Tag>)
    requires Good(p)
    ensures var q := EndTag(p, name);
            Good(q) && q.stack <= p.stack && (name.None? ==> q.stack == [])
  {
    if name.None? {
      CloseToKeeps(p, 0);
    } else {
      var pos := Closest(p.stack, name.value);
      if pos >= 0 {
        CloseToKeeps(p, pos);
      } else if Lower(name.value) == "br" {
        EmitKeeps(p, Start(name.value, true));
      } else if Lower(name.value) == "p" {
        EmitKeeps(p, Start(name.value, false));
        EmitKeeps(Emit(p, Start(name.value, false)), End(name.value));
        assert (p.elements + [name.value])[..|p.elements|] == p.elements;
      }
    }
  }

  // ---------- What an end tag closes ----------

  /** The i-th open element is the last one with the name, upper and lower case alike. */
  ghost predicate LastOpen(stack: seq<Tag>, name: Tag, i: nat) {
    i < |stack| && Lower(stack[i]) == Lower(name) && forall k | i < k < |stack| :: Lower(stack[k]) != Lower(name)
  }

  /** The ends of the elements of a stretch of the stack, the topmost first. */
  function Ends(open: seq<Tag>): seq<Event> {
    seq(|open|, k requires 0 <= k < |open| => End(open[|open| - 1 - k]))
  }

  lemma TopEndsFirst(before: seq<Event>, open: seq<Tag>, top: Tag)
    ensures before + Ends(open + [top]) == before + [End(top)] + Ends(open)
  {
    assert Ends(open + [top]) == [End(top)] + Ends(open);
  }

  lemma {:induction false} EndsDownEmits(p: Parse, pos: nat, i: nat)
    requires pos <= i <= |p.stack| && i - pos <= |p.elements|
    ensures EndsDown(p, pos, i).events == p.events + Ends(p.stack[pos..i])
    decreases i - pos
  {
    if i == pos {
      assert Ends(p.stack[pos..i]) == [];
    } else {
      var q := Emit(p, End(p.stack[i - 1]));
      EndsDownEmits(q, pos, i - 1);
      assert p.stack[pos..i] == p.stack[pos..i - 1] + [p.stack[i - 1]];
      TopEndsFirst(p.events, p.stack[pos..i - 1], p.stack[i - 1]);
    }
  }

  lemma CloseToEmits(p: Parse, pos: nat)
    requires Good(p) && pos <= |p.stack|
    ensures var rest := p.stack[..pos];
            CloseTo(p, pos) == Parse(rest, Top(rest), rest, p.events + Ends(p.stack[pos..]))
  {
    CloseToKeeps(p, pos);
    EndsDownEmits(p, pos, |p.stack|);
    assert p.stack[pos..|p.stack|] == p.stack[pos..];
  }

  /** The last open element with the name and everything above it are closed, and nothing else happens. */
  lemma EndTagCloses(p: Parse, name: Tag, i: nat)
    requires Good(p) && LastOpen(p.stack, name, i)
    ensures var rest := p.stack[..i];
            EndTag(p, Some(name)) == Parse(rest, Top(rest), rest, p.events + Ends(p.stack[i..]))
  {
    assert Closest(p.stack, name) == i;
    CloseToEmits(p, i);
  }

  /** A name that is not open: a stray br is made an element, a stray p an empty one, any other is passed over. */
  lemma StrayEndTag(p: Parse, name: Tag)
    requires Good(p) && forall k | 0 <= k < |p.stack| :: Lower(p.stack[k]) != Lower(name)
    ensures var q := EndTag(p, Some(name));
            && q == p.(events := q.events)
            && q.events == p.events + if Lower(name) == "br" then [Start(name, true)]
                                      else if Lower(name) == "p" then [Start(name, false), End(name)] else []
  {
    assert Closest(p.stack, name) == -1;
    assert (p.elements + [name])[..|p.elements|] == p.elements;
  }

  /** At the end of the text everything is closed. */
  lemma EndOfText(p: Parse)
    requires Good(p)
    ensures EndTag(p, None) == NOTHING.(events := p.events + Ends(p.stack))
  {
    CloseToEmits(p, 0);
    assert p.stack[0..] == p.stack;
  }

  // ---------- handleStartTag ----------

  /** The two automatic closings, with expectHTML set. */
  function MakeRoom(p: Parse, tag: Tag): Parse
    requires Good(p)
  {
    EndTagKeeps(p, Some("p"));
    var q := if p.lastTag == Some("p") && tag in NON_PHRASING then EndTag(p, Some("p")) else p;
    if tag in LEFT_OPEN && q.lastTag == Some(tag) then EndTag(q, Some(tag)) else q
  }

  function StartTag(p: Parse, tag: Tag, slash: bool, expectHtml: bool): Parse
    requires Good(p)
  {
    var q := if expectHtml then MakeRoom(p, tag) else p;
    var unary := tag in UNARY || slash;
    var r := if unary then q else q.(stack := q.stack + [tag], lastTag := Some(tag));
    Emit(r, Start(tag, unary))
  }

  /** Closing the tag that is on top closes nothing else. */
  lemma EndOfTop(p: Parse, tag: Tag)
    requires Good(p) && p.lastTag == Some(tag)
    ensures EndTag(p, Some(tag)).stack == p.stack[..|p.stack| - 1] && Good(EndTag(p, Some(tag)))
  {
    var pos := Closest(p.stack, tag);
    assert pos == |p.stack| - 1;
    CloseToKeeps(p, pos);
  }

  /** What is left when the top is closed may hold another of its kind. */
  lemma OneGone(p: Parse, tag: Tag)
    requires Good(p) && Placed(p.stack) && p.lastTag == Some(tag)
    ensures var q := EndTag(p, Some(tag));
            && Good(q) && Placed(q.stack) && q.stack <= p.stack
            && (q.stack != [] ==> MayHold(q.stack[|q.stack| - 1], tag))
  {
    EndOfTop(p, tag);
    var n := |p.stack|;
    assert n > 1 ==> MayHold(p.stack[n - 2], p.stack[n - 1]);
  }

  /** After the automatic closings the new element may stand where it is put. */
  lemma RoomIsMade(p: Parse, tag: Tag)
    requires Good(p) && Placed(p.stack)
    ensures var q := MakeRoom(p, tag);
            Good(q) && q.stack <= p.stack && (q.stack != [] ==> MayHold(q.stack[|q.stack| - 1], tag))
  {
    var closesP := p.lastTag == Some("p") && tag in NON_PHRASING;
    if closesP {
      OneGone(p, "p");
      assert "p" in LEFT_OPEN;
    }
    var q := if closesP then EndTag(p, Some("p")) else p;
    if tag in LEFT_OPEN && q.lastTag == Some(tag) {
      OneGone(q, tag);
    }
  }

  lemma StartTagKeeps(p: Parse, tag: Tag, slash: bool, expectHtml: bool)
    requires Good(p) && (expectHtml ==> Placed(p.stack))
    ensures var q := StartTag(p, tag, slash, expectHtml);
            Good(q) && (expectHtml ==> Placed(q.stack))
  {
    if expectHtml {
      RoomIsMade(p, tag);
    }
    var q := if expectHtml then MakeRoom(p, tag) else p;
    var unary := tag in UNARY || slash;
    EmitKeeps(q, Start(tag, unary));
  }
}
