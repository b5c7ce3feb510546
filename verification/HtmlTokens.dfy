/** What parseHTML finds in a text, for any tokeniser, and what it comes to, as values. */
module HtmlTokens {
  import opened Sequences
  import opened Wrappers
  import opened HtmlEvents

  /** What the regular expressions find at the start of the text. */
  datatype Token =
    | Skipped                        // a conditional comment or a doctype
    | Remark(text: string)           // a comment
    | Close(name: Tag)
    | Open(name: Tag, slash: bool)
    | Plain(text: string)            // text up to the next tag; nothing at all if nothing is recognised
    | Verbatim(inner: Option<string>) // inside script, style or textarea: all up to the closing tag, None without one

  datatype Lexeme = Lexeme(token: Token, length: nat)

  datatype Options = Options(expectHtml: bool, keepComments: bool)

  datatype Raw = Raw(text: string, length: nat)

  /** `markup` outside script, style and textarea; inside them `raw` looks for the closing tag. */
  datatype Lexer = Lexer(markup: string -> Lexeme, raw: (string, Tag) -> Option<Raw>)

  /** A tokeniser takes what it finds from the front, and everything but text takes something. */
  ghost predicate FromFront(lexer: Lexer) {
    && (forall html :: lexer.markup(html).length <= |html|)
    && (forall html :: html != "" && !lexer.markup(html).token.Plain? ==> lexer.markup(html).length > 0)
    && (forall html, tag :: lexer.raw(html, tag).Some? ==> 0 < lexer.raw(html, tag).value.length <= |html|)
  }

  /** What one token comes to. */
  function Take(p: Parse, t: Token, o: Options): Parse
    requires Good(p)
  {
    match t
    case Skipped => p
    case Remark(text) => if o.keepComments then Emit(p, Comment(text)) else p
    case Close(name) => EndTag(p, Some(name))
    case Open(name, slash) => StartTag(p, name, slash, o.expectHtml)
    case Plain(text) => if text == "" then p else Emit(p, Chars(text))
    case Verbatim(text) => TakeVerbatim(p, text)
  }

  /** The text inside, if its end was found, and the end of the element. */
  function TakeVerbatim(p: Parse, text: Option<string>): Parse
    requires Good(p)
  {
    var q := if text.Some? then Emit(p, Chars(text.value)) else p;
    EndTag(q, LowerOf(p.lastTag))
  }

  function LowerOf(tag: Option<Tag>): Option<Tag> { if tag.Some? then Some(Lower(tag.value)) else None }

  /** The invariant of the loop. */
  ghost predicate Fine(p: Parse, o: Options) {
    Good(p) && (o.expectHtml ==> Placed(p.stack))
  }

  lemma EndTagFine(p: Parse, name: Option<Tag>, o: Options)
    requires Fine(p, o)
    ensures Fine(EndTag(p, name), o)
  {
    EndTagKeeps(p, name);
  }

  lemma EmitFine(p: Parse, e: Event, o: Options)
    requires Fine(p, o) && (e.Chars? || e.Comment?)
    ensures Fine(Emit(p, e), o)
  {
    EmitKeeps(p, e);
  }

  lemma VerbatimKeeps(p: Parse, text: Option<string>, o: Options)
    requires Fine(p, o)
    ensures Fine(TakeVerbatim(p, text), o)
  {
    if text.Some? {
      EmitFine(p, Chars(text.value), o);
      EndTagFine(Emit(p, Chars(text.value)), LowerOf(p.lastTag), o);
    } else {
      EndTagFine(p, LowerOf(p.lastTag), o);
    }
  }

  lemma TagKeeps(p: Parse, t: Token, o: Options)
    requires Fine(p, o) && (t.Close? || t.Open?)
    ensures Fine(Take(p, t, o), o)
  {
    if t.Close? {
      EndTagKeeps(p, Some(t.name));
    } else {
      StartTagKeeps(p, t.name, t.slash, o.expectHtml);
    }
  }

  lemma TakeKeeps(p: Parse, t: Token, o: Options)
    requires Fine(p, o)
    ensures Fine(Take(p, t, o), o)
  {
    match t
    case Skipped =>
    case Remark(text) => EmitFine(p, Comment(text), o);
    case Close(_) => TagKeeps(p, t, o);
    case Open(_, _) => TagKeeps(p, t, o);
    case Plain(text) => EmitFine(p, Chars(text), o);
    case Verbatim(text) => VerbatimKeeps(p, text, o);
  }

  ghost function TakeAll(p: Parse, ts: seq<Token>, o: Options): Parse
    requires Fine(p, o)
    decreases |ts|
  {
    TakeKeeps(p, if ts == [] then Skipped else ts[0], o);
    if ts == [] then p else TakeAll(Take(p, ts[0], o), ts[1..], o)
  }

  lemma {:induction false} TakeAllConcat(p: Parse, a: seq<Token>, b: seq<Token>, o: Options)
    requires Fine(p, o)
    ensures var q := TakeAll(p, a, o);
            Fine(q, o) && TakeAll(p, a + b, o) == TakeAll(q, b, o)
    decreases |a|
  {
    if a == [] {
      assert a + b == b;
    } else {
      TakeKeeps(p, a[0], o);
      assert (a + b)[1..] == a[1..] + b;
      TakeAllConcat(Take(p, a[0], o), a[1..], b, o);
    }
  }

  lemma TakeOne(p: Parse, t: Token, o: Options)
    requires Fine(p, o)
    ensures TakeAll(p, [t], o) == Take(p, t, o)
  {
    TakeKeeps(p, t, o);
  }

  lemma TakeOneMore(p: Parse, ts: seq<Token>, t: Token, o: Options)
    requires Fine(p, o)
    ensures var q := TakeAll(p, ts, o);
            Fine(q, o) && TakeAll(p, ts + [t], o) == Take(q, t, o)
  {
    TakeAllConcat(p, ts, [t], o);
    TakeOne(TakeAll(p, ts, o), t, o);
  }

  /** The whole parse: the tokens, and then every open element closed. */
  ghost function Ended(p: Parse, ts: seq<Token>, o: Options): Parse
    requires Fine(p, o)
  {
    TakeAllConcat(p, ts, [], o);
    EndTag(TakeAll(p, ts, o), None)
  }

  // ---------- The tokens of a text ----------

  predicate InPlainText(lastTag: Option<Tag>) { lastTag.Some? && Lower(lastTag.value) in PLAIN_TEXT }

  /** What is found at the front of the text, and the text after it. */
  function Found(html: string, lexer: Lexer, lastTag: Option<Tag>): (r: (Token, string))
    requires FromFront(lexer)
    ensures r.1 == html || |r.1| < |html|
  {
    if InPlainText(lastTag) then
      var found := lexer.raw(html, Lower(lastTag.value));
      if found.Some? then (Verbatim(Some(found.value.text)), html[found.value.length..]) else (Verbatim(None), html)
    else
      var found := lexer.markup(html);
      (found.token, html[found.length..])
  }

  /** The newline right after <pre> or <textarea> is dropped. */
  function WithoutNewline(html: string, t: Token, lastTag: Option<Tag>): (rest: string)
    ensures rest == html || |rest| < |html|
  {
    if t.Open? && lastTag.Some? && Lower(lastTag.value) in IGNORE_NEWLINE && html != "" && html[0] == '\n'
    then html[1..]
    else html
  }

  /** A comment that is to be kept where there is no element to keep it in. */
  predicate Homeless(p: Parse, t: Token, o: Options) {
    t.Remark? && o.keepComments && p.elements == []
  }

  ghost function Taken(p: Parse, t: Token, o: Options): (q: Parse)
    requires Fine(p, o)
    ensures Fine(q, o)
  {
    TakeKeeps(p, t, o);
    Take(p, t, o)
  }

  /** What is found in the text from `p` on, one after the other; the last one may be a homeless comment. */
  ghost function TokensIn(html: string, lexer: Lexer, p: Parse, o: Options): seq<Token>
    requires FromFront(lexer) && Fine(p, o)
    decreases |html|
  {
    if html == "" then []
    else
      var found := Found(html, lexer, p.lastTag);
      var t := found.0;
      if Homeless(p, t, o) then [t]
      else
        var q := Taken(p, t, o);
        var rest := WithoutNewline(found.1, t, q.lastTag);
        if |rest| == |html| then [t] + [Plain(html)] else [t] + TokensIn(rest, lexer, q, o)
  }

  /** What is left of the text after a token that did not throw. */
  ghost function RestAfter(html: string, lexer: Lexer, p: Parse, o: Options): (rest: string)
    requires FromFront(lexer) && Fine(p, o)
    ensures rest == html || |rest| < |html|
  {
    var found := Found(html, lexer, p.lastTag);
    WithoutNewline(found.1, found.0, Taken(p, found.0, o).lastTag)
  }

  lemma FirstToken(html: string, lexer: Lexer, p: Parse, o: Options)
    requires FromFront(lexer) && Fine(p, o) && html != ""
    ensures var t, rest := Found(html, lexer, p.lastTag).0, RestAfter(html, lexer, p, o);
            TokensIn(html, lexer, p, o) ==
            if Homeless(p, t, o) then [t]
            else if |rest| == |html| then [t] + [Plain(html)]
            else [t] + TokensIn(rest, lexer, Taken(p, t, o), o)
  {
  }

  /** One token's part of all there are, and what the rest of them is found in. */
  lemma OneTokenRead(html: string, lexer: Lexer, p: Parse, o: Options, tokens: seq<Token>, all: seq<Token>)
    returns (t: Token, rest: string, after: seq<Token>)
    requires FromFront(lexer) && Fine(p, o) && html != "" && all == tokens + TokensIn(html, lexer, p, o)
    ensures t == Found(html, lexer, p.lastTag).0 && rest == RestAfter(html, lexer, p, o)
    ensures Homeless(p, t, o) ==> all == tokens + [t]
    ensures !Homeless(p, t, o) ==> all == tokens + [t] + after
    ensures !Homeless(p, t, o) ==>
              after == if |rest| == |html| then [Plain(html)] else TokensIn(rest, lexer, Taken(p, t, o), o)
  {
    FirstToken(html, lexer, p, o);
    t, rest, after := Found(html, lexer, p.lastTag).0, RestAfter(html, lexer, p, o), [];
    if !Homeless(p, t, o) {
      if |rest| == |html| {
        after := [Plain(html)];
      } else {
        after := TokensIn(rest, lexer, Taken(p, t, o), o);
      }
      Regroup(tokens, [t], after);
    }
  }

  /** The k-th token is a comment to be kept, outside all elements. */
  ghost predicate ThrowsAt(p: Parse, ts: seq<Token>, k: nat, o: Options)
    requires Fine(p, o) && k < |ts|
  {
    Homeless(TakeAll(p, ts[..k], o), ts[k], o)
  }

  ghost predicate Throws(p: Parse, ts: seq<Token>, o: Options)
    requires Fine(p, o)
  {
    exists k: nat :: k < |ts| && ThrowsAt(p, ts, k, o)
  }

  /** How a parse ends: broken off before the comment that throws, or with every open element closed. */
  ghost predicate Outcome(start: Parse, ts: seq<Token>, o: Options, threw: bool, end: Parse) {
    && Fine(start, o) && Fine(end, o)
    && (threw <==> Throws(start, ts, o))
    && (if threw then ts != [] && end == TakeAll(start, ts[..|ts| - 1], o)
        else end == Ended(start, ts, o) && end == NOTHING.(events := end.events) && Nest(end.events) == Some([]))
  }

  lemma ThrowsOn(p: Parse, ts: seq<Token>, t: Token, o: Options)
    requires Fine(p, o) && !Throws(p, ts, o)
    ensures Throws(p, ts + [t], o) <==> Homeless(TakeAll(p, ts, o), t, o)
  {
    var more := ts + [t];
    assert more[..|ts|] == ts;
    forall k: nat | k < |ts| ensures !ThrowsAt(p, more, k, o) {
      assert !ThrowsAt(p, ts, k, o);
      assert more[..k] == ts[..k];
    }
    if Homeless(TakeAll(p, ts, o), t, o) {
      assert ThrowsAt(p, more, |ts|, o);
    }
  }

  lemma OneTokenThrows(p: Parse, t: Token, o: Options)
    requires Fine(p, o) && Homeless(p, t, o)
    ensures Throws(p, [t], o)
  {
    assert [t][..0] == [];
    assert ThrowsAt(p, [t], 0, o);
  }

  /** What a text's first token comes to when it is a homeless comment. */
  lemma StopsAtOnce(html: string, lexer: Lexer, p: Parse, o: Options)
    requires FromFront(lexer) && Fine(p, o) && p.lastTag == None && html != ""
             && Homeless(p, lexer.markup(html).token, o)
    ensures TokensIn(html, lexer, p, o) == [lexer.markup(html).token]
  {
    FirstToken(html, lexer, p, o);
    assert Found(html, lexer, p.lastTag).0 == lexer.markup(html).token;
  }

  /** A text that begins with a comment, comments being kept. */
  lemma LeadingCommentThrows(html: string, lexer: Lexer, p: Parse, o: Options)
    requires FromFront(lexer) && p == NOTHING && html != "" && o.keepComments && lexer.markup(html).token.Remark?
    ensures Fine(p, o) && Throws(p, TokensIn(html, lexer, p, o), o)
  {
    StopsAtOnce(html, lexer, p, o);
    OneTokenThrows(p, lexer.markup(html).token, o);
  }

  /** A tokeniser that knows one comment and takes everything else for text. */
  function OneComment(html: string): (found: Lexeme)
    ensures found.length == |html|
  {
    Lexeme(if html == "<!--a-->" then Remark("a") else Plain(html), |html|)
  }

  function NoRaw(html: string, tag: Tag): Option<Raw> { None }

  lemma OneCommentIsFromFront(lexer: Lexer)
    requires forall html: string :: lexer.markup(html) == OneComment(html)
    requires forall html: string, tag: Tag :: lexer.raw(html, tag) == None
    ensures FromFront(lexer)
  {
  }

  /** One such text. */
  lemma CommentAloneThrows(lexer: Lexer, p: Parse, o: Options)
    requires lexer == Lexer(OneComment, NoRaw) && p == NOTHING && o == Options(true, true)
    ensures FromFront(lexer) && Fine(p, o) && Throws(p, TokensIn("<!--a-->", lexer, p, o), o)
  {
    OneCommentIsFromFront(lexer);
    assert lexer.markup("<!--a-->").token == OneComment("<!--a-->").token;
    LeadingCommentThrows("<!--a-->", lexer, p, o);
  }

  // ---------- A document read back ----------

  /**
   A document: elements, with their end tag or without, elements without content, text, elements in which only plain
   text is allowed, comments, and what is passed over.
   */
  datatype Node =
    | Element(tag: Tag, children: seq<Node>, closed: bool)
    | Void(tag: Tag, slash: bool)
    | Text(text: string)
    | PlainElement(tag: Tag, text: string)
    | Note(text: string)
    | Unseen

  /** What is still open after the nodes have been read, outermost first. */
  function Left(nodes: seq<Node>): seq<Tag>
    decreases nodes
  {
    if nodes == [] then [] else LeftBy(nodes[|nodes| - 1])
  }

  function LeftBy(n: Node): seq<Tag>
    decreases n
  {
    if n.Element? && !n.closed then [n.tag] + Left(n.children) else []
  }

  /** The start tag closes exactly what is open: a p, another of its kind, or such a one with a p in it. */
  predicate Ousts(tag: Tag, open: seq<Tag>) {
    || open == []
    || (open == ["p"] && tag in NON_PHRASING)
    || (open == [tag] && tag in LEFT_OPEN)
    || (open == [tag, "p"] && tag in NON_PHRASING && tag in LEFT_OPEN)
  }

  /** The node may follow where that is open. */
  predicate Follows(n: Node, open: seq<Tag>) {
    if n.Text? || n.Note? || n.Unseen? then open == [] else Ousts(n.tag, open)
  }

  /**
   Every element may stand where it stands, void ones are those the parser takes for void, and an end tag is left out
   only where what follows closes the element.
   */
  predicate Proper(nodes: seq<Node>, parent: Option<Tag>)
    decreases nodes
  {
    nodes == [] || (
      && ProperOne(nodes[0], parent) && Proper(nodes[1..], parent)
      && (|nodes| > 1 ==> Follows(nodes[1], LeftBy(nodes[0]))))
  }

  predicate ProperOne(n: Node, parent: Option<Tag>)
    decreases n
  {
    match n
    case Element(tag, children, closed) =>
      && (parent.Some? ==> MayHold(parent.value, tag))
      && tag !in UNARY && Lower(tag) !in PLAIN_TEXT && Proper(children, Some(tag))
      && (closed ==> forall open <- Left(children) :: Lower(open) != Lower(tag))
    case Void(tag, slash) => (parent.Some? ==> MayHold(parent.value, tag)) && (tag in UNARY || slash)
    case Text(text) => text != ""
    case Note(_) => parent.Some?
    case Unseen => true
    case PlainElement(tag, _) =>
      (parent.Some? ==> MayHold(parent.value, tag)) && tag !in UNARY && Lower(tag) in PLAIN_TEXT
  }

  function TokensOf(nodes: seq<Node>): seq<Token>
    decreases nodes
  {
    if nodes == [] then [] else TokensOfOne(nodes[0]) + TokensOf(nodes[1..])
  }

  function TokensOfOne(n: Node): seq<Token>
    decreases n
  {
    match n
    case Element(tag, children, closed) =>
      [Open(tag, false)] + TokensOf(children) + if closed then [Close(tag)] else []
    case Void(tag, slash) => [Open(tag, slash)]
    case Text(text) => [Plain(text)]
    case Note(text) => [Remark(text)]
    case Unseen => [Skipped]
    case PlainElement(tag, text) => [Open(tag, false)] + [Verbatim(Some(text))]
  }

  /** What the document means: every element begins and ends, its end tag written or not. */
  function EventsOf(nodes: seq<Node>, keep: bool): seq<Event>
    decreases nodes
  {
    if nodes == [] then [] else EventsOfOne(nodes[0], keep) + EventsOf(nodes[1..], keep)
  }

  function EventsOfOne(n: Node, keep: bool): seq<Event>
    decreases n
  {
    match n
    case Element(tag, children, _) => [Start(tag, false)] + EventsOf(children, keep) + [End(tag)]
    case Void(tag, _) => [Start(tag, true)]
    case Text(text) => [Chars(text)]
    case Note(text) => if keep then [Comment(text)] else []
    case Unseen => []
    case PlainElement(tag, text) => [Start(tag, false), Chars(text), End(tag)]
  }

  /** Where a parse stands that has read what means `events` from p on, with `open` still to be closed. */
  ghost predicate Read(p: Parse, q: Parse, events: seq<Event>, open: seq<Tag>, o: Options) {
    Fine(q, o) && q.stack == p.stack + open && q.events + Ends(open) == p.events + events
  }

  lemma ReadOne(p: Parse, q: Parse, events: seq<Event>, o: Options)
    requires Fine(q, o) && Good(p) && q == p.(events := p.events + events)
    ensures Read(p, q, events, [], o)
  {
    assert p.stack + [] == p.stack && q.events + Ends([]) == q.events;
  }

  /** What was open has been closed by what follows, and the reading goes on. */
  lemma ReadOn(p: Parse, q: Parse, r: Parse, a: seq<Event>, b: seq<Event>, open: seq<Tag>, o: Options)
    requires q == p.(events := p.events + a) && Read(q, r, b, open, o)
    ensures Read(p, r, a + b, open, o)
  {
    Regroup(p.events, a, b);
  }

  lemma OpensAsIs(p: Parse, tag: Tag, slash: bool)
    requires Good(p) && (p.stack != [] ==> MayHold(p.stack[|p.stack| - 1], tag))
    ensures StartTag(p, tag, slash, true) ==
            if tag in UNARY || slash then p.(events := p.events + [Start(tag, true)])
            else Parse(p.stack + [tag], Some(tag), p.stack + [tag], p.events + [Start(tag, false)])
  {
    assert MakeRoom(p, tag) == p;
  }

  /** The closing of the element on top, event and all. */
  lemma TopCloses(p: Parse, tag: Tag)
    requires Good(p) && p.lastTag == Some(tag)
    ensures var rest := p.stack[..|p.stack| - 1];
            EndTag(p, Some(tag)) == Parse(rest, Top(rest), rest, p.events + [End(tag)])
  {
    var n := |p.stack|;
    EndTagCloses(p, tag, n - 1);
    assert Ends(p.stack[n - 1..]) == [End(tag)];
  }

  lemma OneOusted(p: Parse, base: seq<Tag>, last: Tag)
    requires Good(p) && p.stack == base + [last]
    ensures EndTag(p, Some(last)) == Parse(base, Top(base), base, p.events + [End(last)])
  {
    TopCloses(p, last);
    assert p.stack[..|p.stack| - 1] == base;
  }

  /** A start tag closes what it ousts, so it finds the parse as if that had been closed before. */
  lemma RoomByOusting(p: Parse, base: seq<Tag>, open: seq<Tag>, tag: Tag)
    requires Good(p) && p.stack == base + open && Ousts(tag, open)
    requires base != [] ==> MayHold(base[|base| - 1], tag)
    ensures MakeRoom(p, tag) == Parse(base, Top(base), base, p.events + Ends(open))
  {
    if open == [] {
      assert base + open == base && p.events + Ends(open) == p.events;
    } else if |open| == 1 {
      assert open == [open[0]] && Ends(open) == [End(open[0])];
      OneOusted(p, base, open[0]);
      assert p.lastTag == Some(open[0]);
    } else {
      TwoOusted(p, base, tag);
    }
  }

  lemma TwoOusted(p: Parse, base: seq<Tag>, tag: Tag)
    requires Good(p) && p.stack == base + [tag, "p"] && tag in NON_PHRASING && tag in LEFT_OPEN
    ensures MakeRoom(p, tag) == Parse(base, Top(base), base, p.events + Ends([tag, "p"]))
  {
    assert base + [tag, "p"] == base + [tag] + ["p"];
    OneOusted(p, base + [tag], "p");
    EndTagKeeps(p, Some("p"));
    var q := EndTag(p, Some("p"));
    OneOusted(q, base, tag);
    assert p.events + [End("p")] + [End(tag)] == p.events + Ends([tag, "p"]);
  }

  lemma TakenAfterOusting(q: Parse, open: seq<Tag>, tag: Tag, slash: bool, r: Parse, o: Options)
    requires o.expectHtml
    requires Fine(q, o) && Fine(r, o) && Ousts(tag, open) && q.stack == r.stack + open
    requires r.stack != [] ==> MayHold(r.stack[|r.stack| - 1], tag)
    requires q.events + Ends(open) == r.events
    ensures Take(q, Open(tag, slash), o) == Take(r, Open(tag, slash), o)
  {
    RoomByOusting(q, r.stack, open, tag);
    assert MakeRoom(r, tag) == r;
  }

  function OpeningOf(n: Node): (t: Token)
    requires !n.Text? && !n.Note? && !n.Unseen?
    ensures TokensOfOne(n) != [] && TokensOfOne(n)[0] == t
  {
    Open(n.tag, if n.Void? then n.slash else false)
  }

  /** What follows closes what was left open. */
  lemma OpenIsOusted(q: Parse, open: seq<Tag>, n: Node, rest: seq<Node>, r: Parse, o: Options)
    requires o.expectHtml
    requires Fine(q, o) && Fine(r, o) && Follows(n, open) && ProperOne(n, Top(r.stack))
    requires q.stack == r.stack + open && q.events + Ends(open) == r.events
    ensures TakeAll(q, TokensOf([n] + rest), o) == TakeAll(r, TokensOf([n] + rest), o)
  {
    if open == [] {
      assert r.stack + [] == r.stack && q.events + Ends([]) == q.events;
      assert q == r;
    } else {
      TakenAfterOusting(q, open, n.tag, OpeningOf(n).slash, r, o);
      assert TokensOf([n] + rest)[0] == OpeningOf(n);
    }
  }

  /** Past the first node the reading goes on as if what it left open had been closed. */
  lemma PastFirst(p: Parse, nodes: seq<Node>, o: Options)
    requires o.expectHtml
    requires Fine(p, o) && Proper(nodes, Top(p.stack)) && |nodes| > 1
    requires Read(p, TakeAll(p, TokensOfOne(nodes[0]), o), EventsOfOne(nodes[0], o.keepComments), LeftBy(nodes[0]), o)
    ensures var r := p.(events := p.events + EventsOfOne(nodes[0], o.keepComments));
            Fine(r, o) && TakeAll(p, TokensOf(nodes), o) == TakeAll(r, TokensOf(nodes[1..]), o)
  {
    var q, r := TakeAll(p, TokensOfOne(nodes[0]), o), p.(events := p.events + EventsOfOne(nodes[0], o.keepComments));
    TakeAllConcat(p, TokensOfOne(nodes[0]), TokensOf(nodes[1..]), o);
    StillFine(p, q, nodes[0], o);
    assert nodes[1..] == [nodes[1]] + nodes[2..];
    OpenIsOusted(q, LeftBy(nodes[0]), nodes[1], nodes[2..], r, o);
  }

  /**
   Reading the tokens of a proper document gives back what it means; what is left open is what its missing end tags
   leave open at its end.
   */
  lemma {:induction false} DocumentIsReadBack(p: Parse, nodes: seq<Node>, o: Options)
    requires o.expectHtml
    requires Fine(p, o) && Proper(nodes, Top(p.stack))
    ensures Read(p, TakeAll(p, TokensOf(nodes), o), EventsOf(nodes, o.keepComments), Left(nodes), o)
    decreases nodes, 0
  {
    if nodes == [] {
      NothingBeside(p.events);
      ReadOne(p, p, [], o);
    } else {
      NodeIsReadBack(p, nodes[0], o);
      if |nodes| == 1 {
        LastNode(p, nodes, o);
      } else {
        PastFirst(p, nodes, o);
        var r := p.(events := p.events + EventsOfOne(nodes[0], o.keepComments));
        DocumentIsReadBack(r, nodes[1..], o);
        ReadOn(p, r, TakeAll(r, TokensOf(nodes[1..]), o), EventsOfOne(nodes[0], o.keepComments),
            EventsOf(nodes[1..], o.keepComments), Left(nodes), o);
      }
    }
  }

  lemma LastNode(p: Parse, nodes: seq<Node>, o: Options)
    requires Fine(p, o) && |nodes| == 1
    requires Read(p, TakeAll(p, TokensOfOne(nodes[0]), o), EventsOfOne(nodes[0], o.keepComments), LeftBy(nodes[0]), o)
    ensures Read(p, TakeAll(p, TokensOf(nodes), o), EventsOf(nodes, o.keepComments), Left(nodes), o)
  {
    NothingBeside(EventsOfOne(nodes[0], o.keepComments));
    NothingBeside(TokensOfOne(nodes[0]));
    assert nodes[1..] == [];
  }

  /** Once what is open is closed, nothing but events has come. */
  lemma StillFine(p: Parse, q: Parse, n: Node, o: Options)
    requires Fine(p, o) && Read(p, q, EventsOfOne(n, o.keepComments), LeftBy(n), o)
    ensures Fine(p.(events := p.events + EventsOfOne(n, o.keepComments)), o)
  {
    CloseToKeeps(q, |p.stack|);
    CloseToEmits(q, |p.stack|);
    assert q.stack[..|p.stack|] == p.stack && q.stack[|p.stack|..] == LeftBy(n);
  }

  lemma {:induction false} NodeIsReadBack(p: Parse, n: Node, o: Options)
    requires o.expectHtml
    requires Fine(p, o) && ProperOne(n, Top(p.stack))
    ensures Read(p, TakeAll(p, TokensOfOne(n), o), EventsOfOne(n, o.keepComments), LeftBy(n), o)
    decreases n, 2
  {
    TakeAllConcat(p, TokensOfOne(n), [], o);
    match n
    case Text(text) =>
      TakeOne(p, Plain(text), o);
      ReadOne(p, TakeAll(p, TokensOfOne(n), o), EventsOfOne(n, o.keepComments), o);
    case Note(text) =>
      TakeOne(p, Remark(text), o);
      NothingBeside(p.events);
      ReadOne(p, TakeAll(p, TokensOfOne(n), o), EventsOfOne(n, o.keepComments), o);
    case Unseen =>
      TakeOne(p, Skipped, o);
      NothingBeside(p.events);
      ReadOne(p, TakeAll(p, TokensOfOne(n), o), EventsOfOne(n, o.keepComments), o);
    case Void(tag, slash) =>
      OpensAsIs(p, tag, slash);
      TakeOne(p, Open(tag, slash), o);
      ReadOne(p, TakeAll(p, TokensOfOne(n), o), EventsOfOne(n, o.keepComments), o);
    case Element(tag, children, closed) => ElementIsReadBack(p, tag, children, closed, o);
    case PlainElement(tag, text) => PlainIsReadBack(p, tag, text, o);
  }

  /** The text of such an element and its end tag are found together. */
  lemma VerbatimCloses(q: Parse, base: seq<Tag>, tag: Tag, text: string)
    requires Good(q) && q.stack == base + [tag]
    ensures TakeVerbatim(q, Some(text)) == Parse(base, Top(base), base, q.events + [Chars(text)] + [End(tag)])
  {
    EmitKeeps(q, Chars(text));
    LowerTwice(tag);
    var r := Emit(q, Chars(text));
    EndTagCloses(r, Lower(tag), |base|);
    assert r.stack[..|base|] == base && Ends(r.stack[|base|..]) == [End(tag)];
  }

  lemma PlainCloses(p: Parse, q: Parse, tag: Tag, text: string)
    requires Good(q) && Good(p)
    requires q == Parse(p.stack + [tag], Some(tag), p.stack + [tag], p.events + [Start(tag, false)])
    ensures TakeVerbatim(q, Some(text)) == p.(events := p.events + [Start(tag, false), Chars(text), End(tag)])
  {
    VerbatimCloses(q, p.stack, tag, text);
    ThreeEvents(p.events, Start(tag, false), Chars(text), End(tag));
  }

  lemma ThreeEvents(before: seq<Event>, a: Event, b: Event, c: Event)
    ensures before + [a] + [b] + [c] == before + [a, b, c]
  {
  }

  lemma VerbatimTaken(q: Parse, text: Option<string>, o: Options)
    requires Good(q)
    ensures Take(q, Verbatim(text), o) == TakeVerbatim(q, text)
  {
  }

  lemma ThenVerbatim(p: Parse, ts: seq<Token>, q: Parse, text: Option<string>, o: Options)
    requires Fine(p, o) && q == TakeAll(p, ts, o)
    ensures Good(q) && TakeAll(p, ts + [Verbatim(text)], o) == TakeVerbatim(q, text)
  {
    TakeOneMore(p, ts, Verbatim(text), o);
    VerbatimTaken(q, text, o);
  }

  lemma PlainIsTaken(p: Parse, tag: Tag, text: string, o: Options)
    requires o.expectHtml
    requires Fine(p, o) && (p.stack != [] ==> MayHold(p.stack[|p.stack| - 1], tag)) && tag !in UNARY
    ensures TakeAll(p, [Open(tag, false)] + [Verbatim(Some(text))], o) ==
            p.(events := p.events + [Start(tag, false), Chars(text), End(tag)])
  {
    TakeOne(p, Open(tag, false), o);
    OpensAsIs(p, tag, false);
    var q := Parse(p.stack + [tag], Some(tag), p.stack + [tag], p.events + [Start(tag, false)]);
    ThenVerbatim(p, [Open(tag, false)], q, Some(text), o);
    PlainCloses(p, q, tag, text);
  }

  lemma PlainIsReadBack(p: Parse, tag: Tag, text: string, o: Options)
    requires o.expectHtml
    requires Fine(p, o) && ProperOne(PlainElement(tag, text), Top(p.stack))
    ensures Read(p, TakeAll(p, TokensOfOne(PlainElement(tag, text)), o),
            EventsOfOne(PlainElement(tag, text), o.keepComments), [], o)
  {
    PlainIsTaken(p, tag, text, o);
    TakeAllConcat(p, TokensOfOne(PlainElement(tag, text)), [], o);
    ReadOne(p, TakeAll(p, TokensOfOne(PlainElement(tag, text)), o),
        EventsOfOne(PlainElement(tag, text), o.keepComments), o);
  }

  lemma LowerTwice(s: string)
    ensures Lower(Lower(s)) == Lower(s)
  {
  }

  /** The opening of an element and what is inside. */
  lemma {:induction false} InsideIsRead(p: Parse, tag: Tag, children: seq<Node>, o: Options)
    requires o.expectHtml
    requires Fine(p, o) && tag !in UNARY && (p.stack != [] ==> MayHold(p.stack[|p.stack| - 1], tag))
    requires Proper(children, Some(tag))
    ensures var ts := [Open(tag, false)] + TokensOf(children);
            Read(p, TakeAll(p, ts, o), [Start(tag, false)] + EventsOf(children, o.keepComments) + [End(tag)],
                [tag] + Left(children), o)
    decreases children, 1
  {
    var a := Open(tag, false);
    TakeKeeps(p, a, o);
    TakeOne(p, a, o);
    TakeAllConcat(p, [a], TokensOf(children), o);
    OpensAsIs(p, tag, false);
    var q := Take(p, a, o);
    assert Top(q.stack) == Some(tag);
    DocumentIsReadBack(q, children, o);
    OneMoreOpen(p, q, TakeAll(q, TokensOf(children), o), tag, EventsOf(children, o.keepComments), Left(children), o);
  }

  /** The element's own start and end around what its children come to. */
  lemma OneMoreOpen(p: Parse, q: Parse, r: Parse, tag: Tag, inner: seq<Event>, open: seq<Tag>, o: Options)
    requires q.stack == p.stack + [tag] && q.events == p.events + [Start(tag, false)] && Read(q, r, inner, open, o)
    ensures Read(p, r, [Start(tag, false)] + inner + [End(tag)], [tag] + open, o)
  {
    assert p.stack + [tag] + open == p.stack + ([tag] + open);
    assert Ends([tag] + open) == Ends(open) + [End(tag)];
    assert r.events + Ends([tag] + open) == (r.events + Ends(open)) + [End(tag)];
    assert p.events + ([Start(tag, false)] + inner + [End(tag)]) == p.events + [Start(tag, false)] + inner + [End(tag)];
  }

  lemma {:induction false} ElementIsReadBack(p: Parse, tag: Tag, children: seq<Node>, closed: bool, o: Options)
    requires o.expectHtml
    requires Fine(p, o) && ProperOne(Element(tag, children, closed), Top(p.stack))
    ensures var n := Element(tag, children, closed);
            Read(p, TakeAll(p, TokensOfOne(n), o), EventsOfOne(n, o.keepComments), LeftBy(n), o)
    decreases children, 2
  {
    var n := Element(tag, children, closed);
    var ts := [Open(tag, false)] + TokensOf(children);
    InsideIsRead(p, tag, children, o);
    if closed {
      TakeOneMore(p, ts, Close(tag), o);
      ElementCloses(p, TakeAll(p, ts, o), tag, EventsOfOne(n, o.keepComments), Left(children), o);
    } else {
      assert ts + [] == ts;
    }
  }

  /** An end tag closes its element with all that is still open in it. */
  lemma ElementCloses(p: Parse, q: Parse, tag: Tag, events: seq<Event>, open: seq<Tag>, o: Options)
    requires Fine(p, o) && Read(p, q, events, [tag] + open, o) && forall x <- open :: Lower(x) != Lower(tag)
    ensures Read(p, Take(q, Close(tag), o), events, [], o)
  {
    var i := |p.stack|;
    assert q.stack[i..] == [tag] + open && q.stack[..i] == p.stack;
    forall k | i < k < |q.stack| ensures Lower(q.stack[k]) != Lower(tag) {
      assert q.stack[k] == open[k - i - 1];
    }
    EndTagCloses(q, tag, i);
    TakeKeeps(q, Close(tag), o);
    ReadOne(p, Take(q, Close(tag), o), events, o);
  }

  /** A whole document, end tags left out at its end included: its events are what it means. */
  lemma WholeDocument(nodes: seq<Node>, o: Options)
    requires o.expectHtml
    requires Proper(nodes, None)
    ensures Ended(NOTHING, TokensOf(nodes), o).events == EventsOf(nodes, o.keepComments)
  {
    DocumentIsReadBack(NOTHING, nodes, o);
    var p := TakeAll(NOTHING, TokensOf(nodes), o);
    EndOfText(p);
    assert [] + Left(nodes) == Left(nodes) && [] + EventsOf(nodes, o.keepComments) == EventsOf(nodes, o.keepComments);
  }

  // ---------- A text read back ----------

  function Joined(texts: seq<string>): string {
    if texts == [] then "" else texts[0] + Joined(texts[1..])
  }

  /** At the front of the text the tokeniser finds this token, taking that many characters for it. */
  predicate FindsFirst(lexer: Lexer, html: string, lastTag: Option<Tag>, t: Token, length: nat) {
    if InPlainText(lastTag)
    then t.Verbatim? && t.inner.Some? && lexer.raw(html, Lower(lastTag.value)) == Some(Raw(t.inner.value, length))
    else lexer.markup(html) == Lexeme(t, length)
  }

  /** The token has opened a pre or a textarea, or something in one: a newline right after it does not count. */
  predicate NewlineDoesNotCount(t: Token, lastTag: Option<Tag>) {
    t.Open? && lastTag.Some? && (Lower(lastTag.value) == "pre" || Lower(lastTag.value) == "textarea")
  }

  /** The text in front of the rest is what the tokeniser takes for the token, with a newline that does not count. */
  predicate WrittenAs(lexer: Lexer, lastTag: Option<Tag>, t: Token, text: string, rest: string, after: Option<Tag>) {
    text != "" &&
    if NewlineDoesNotCount(t, after) && text[|text| - 1] == '\n'
    then FindsFirst(lexer, text + rest, lastTag, t, |text| - 1)
    else && FindsFirst(lexer, text + rest, lastTag, t, |text|)
         && !(NewlineDoesNotCount(t, after) && rest != "" && rest[0] == '\n')
  }

  /** The texts are what the tokens are written as. */
  ghost predicate Written(lexer: Lexer, p: Parse, ts: seq<Token>, texts: seq<string>, o: Options)
    requires Fine(p, o)
    decreases |ts|
  {
    |ts| == |texts| && (ts == [] || (
      && WrittenAs(lexer, p.lastTag, ts[0], texts[0], Joined(texts[1..]), Taken(p, ts[0], o).lastTag)
      && !Homeless(p, ts[0], o)
      && Written(lexer, Taken(p, ts[0], o), ts[1..], texts[1..], o)))
  }

  lemma FirstIsFound(lexer: Lexer, html: string, lastTag: Option<Tag>, t: Token, text: string, rest: string)
    requires FromFront(lexer) && html == text + rest && FindsFirst(lexer, html, lastTag, t, |text|)
    ensures Found(html, lexer, lastTag) == (t, rest)
  {
    assert html[|text|..] == rest;
  }

  /** What is left after the token and the newline that does not count. */
  lemma RestIsLeft(lexer: Lexer, lastTag: Option<Tag>, t: Token, text: string, rest: string, after: Option<Tag>)
    requires FromFront(lexer) && WrittenAs(lexer, lastTag, t, text, rest, after)
    ensures var found := Found(text + rest, lexer, lastTag);
            found.0 == t && WithoutNewline(found.1, t, after) == rest
  {
    if NewlineDoesNotCount(t, after) && text[|text| - 1] == '\n' {
      var n := |text| - 1;
      assert text + rest == text[..n] + (['\n'] + rest);
      FirstIsFound(lexer, text + rest, lastTag, t, text[..n], ['\n'] + rest);
      assert (['\n'] + rest)[1..] == rest;
    } else {
      FirstIsFound(lexer, text + rest, lastTag, t, text, rest);
    }
  }

  lemma FirstIsRead(lexer: Lexer, p: Parse, t: Token, text: string, rest: string, o: Options)
    requires FromFront(lexer) && Fine(p, o) && WrittenAs(lexer, p.lastTag, t, text, rest, Taken(p, t, o).lastTag)
    requires !Homeless(p, t, o)
    ensures TokensIn(text + rest, lexer, p, o) == [t] + TokensIn(rest, lexer, Taken(p, t, o), o)
  {
    RestIsLeft(lexer, p.lastTag, t, text, rest, Taken(p, t, o).lastTag);
    FirstToken(text + rest, lexer, p, o);
  }

  lemma FirstWritten(lexer: Lexer, p: Parse, ts: seq<Token>, texts: seq<string>, o: Options)
    requires Fine(p, o) && Written(lexer, p, ts, texts, o) && ts != []
    ensures var t, text, rest := ts[0], texts[0], Joined(texts[1..]);
            && Joined(texts) == text + rest && !Homeless(p, t, o)
            && WrittenAs(lexer, p.lastTag, t, text, rest, Taken(p, t, o).lastTag)
            && Written(lexer, Taken(p, t, o), ts[1..], texts[1..], o)
  {
  }

  lemma OneMoreFound(lexer: Lexer, p: Parse, ts: seq<Token>, texts: seq<string>, o: Options)
    requires FromFront(lexer) && Fine(p, o) && Written(lexer, p, ts, texts, o) && ts != []
    ensures Written(lexer, Taken(p, ts[0], o), ts[1..], texts[1..], o)
    ensures TokensIn(Joined(texts), lexer, p, o) ==
            [ts[0]] + TokensIn(Joined(texts[1..]), lexer, Taken(p, ts[0], o), o)
  {
    FirstWritten(lexer, p, ts, texts, o);
    FirstIsRead(lexer, p, ts[0], texts[0], Joined(texts[1..]), o);
  }

  lemma NothingWritten(lexer: Lexer, p: Parse, texts: seq<string>, o: Options)
    requires FromFront(lexer) && Fine(p, o) && texts == []
    ensures TokensIn(Joined(texts), lexer, p, o) == []
  {
  }

  lemma Whole<T>(s: seq<T>, rest: seq<T>, all: seq<T>)
    requires s != [] && rest == s[1..] && all == [s[0]] + rest
    ensures s == all
  {
  }

  /** Every token that was written is found, in order, and nothing else is. */
  lemma {:induction false} WrittenIsFound(lexer: Lexer, p: Parse, ts: seq<Token>, texts: seq<string>, o: Options)
    requires FromFront(lexer) && Fine(p, o) && Written(lexer, p, ts, texts, o)
    ensures ts == TokensIn(Joined(texts), lexer, p, o)
    decreases |ts|
  {
    if ts == [] {
      NothingWritten(lexer, p, texts, o);
    } else {
      OneMoreFound(lexer, p, ts, texts, o);
      var q := Taken(p, ts[0], o);
      WrittenIsFound(lexer, q, ts[1..], texts[1..], o);
      Whole(ts, TokensIn(Joined(texts[1..]), lexer, q, o), TokensIn(Joined(texts), lexer, p, o));
    }
  }

  /** No comment that was written is homeless. */
  lemma {:induction false} WrittenDoesNotThrow(lexer: Lexer, p: Parse, ts: seq<Token>, texts: seq<string>, o: Options,
                                               k: nat)
    requires Fine(p, o) && Written(lexer, p, ts, texts, o) && k < |ts|
    ensures !ThrowsAt(p, ts, k, o)
    decreases k
  {
    FirstWritten(lexer, p, ts, texts, o);
    if k > 0 {
      WrittenDoesNotThrow(lexer, Taken(p, ts[0], o), ts[1..], texts[1..], o, k - 1);
      assert ts[..k][1..] == ts[1..][..k - 1] && ts[..k][0] == ts[0];
    }
  }

  /** The text of a proper document: parsing it does not throw, and what it comes to is what the document means. */
  lemma TextIsReadBack(lexer: Lexer, p: Parse, nodes: seq<Node>, texts: seq<string>, o: Options, threw: bool,
                       end: Parse)
    requires FromFront(lexer) && Fine(p, o) && p == NOTHING && o.expectHtml
    requires Proper(nodes, None) && Written(lexer, p, TokensOf(nodes), texts, o)
    requires Outcome(p, TokensIn(Joined(texts), lexer, p, o), o, threw, end)
    ensures !threw && end == NOTHING.(events := EventsOf(nodes, o.keepComments))
  {
    WrittenIsFound(lexer, p, TokensOf(nodes), texts, o);
    forall k: nat | k < |TokensOf(nodes)| ensures !ThrowsAt(p, TokensOf(nodes), k, o) {
      WrittenDoesNotThrow(lexer, p, TokensOf(nodes), texts, o, k);
    }
    WholeDocument(nodes, o);
  }
}
