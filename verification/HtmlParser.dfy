/** parseHTML as it is written: the loop over the remaining text, its stack, and parse's callbacks. */
module HtmlParser {
  import opened Sequences
  import opened Wrappers
  import opened HtmlEvents
  import opened HtmlTokens

  class Parser {
    var stack: seq<Tag>
    var lastTag: Option<Tag>
    var elements: seq<Tag>
    var events: seq<Event>

    function View(): Parse
      reads this
    {
      Parse(stack, lastTag, elements, events)
    }

    constructor ()
      ensures View() == NOTHING && Good(View()) && Placed(stack)
    {
      stack, lastTag, elements, events := [], None, [], [];
    }

    // ---------- parse's callbacks ----------

    method OnStart(tag: Tag, unary: bool)
      modifies `elements, `events
      ensures View() == Emit(old(View()), Start(tag, unary))
    {
      events := events + [Start(tag, unary)];
      if !unary {
        elements := elements + [tag];
      }
    }

    /** The element on top is popped without a look at its tag: there must be one. */
    method OnEnd(tag: Tag)
      requires elements != []
      modifies `elements, `events
      ensures View() == Emit(old(View()), End(tag))
    {
      events := events + [End(tag)];
      elements := elements[..|elements| - 1];
    }

    method OnChars(text: string)
      modifies `events
      ensures View() == Emit(old(View()), Chars(text))
    {
      events := events + [Chars(text)];
    }

    /** A kept comment is added to the current parent, and fails if there is none. */
    method OnComment(text: string) returns (threw: bool)
      modifies `events
      ensures threw <==> elements == []
      ensures View() == if threw then old(View()) else Emit(old(View()), Comment(text))
    {
      threw := elements == [];
      if !threw {
        events := events + [Comment(text)];
      }
    }

    // ---------- parseHTML ----------

    method FindClosest(name: Tag) returns (pos: int)
      ensures pos == Closest(stack, name)
    {
      pos := |stack| - 1;
      assert stack[..pos + 1] == stack;
      while pos >= 0 && Lower(stack[pos]) != Lower(name)
        invariant -1 <= pos < |stack| && Closest(stack[..pos + 1], name) == Closest(stack, name)
      {
        assert stack[..pos + 1][..pos] == stack[..pos];
        pos := pos - 1;
      }
    }

    /** Close the open elements above `pos`, the innermost first. */
    method CloseDownTo(pos: nat)
      requires pos <= |stack| == |elements|
      modifies this
      ensures View() == CloseTo(old(View()), pos)
    {
      var i := |stack|;
      while i > pos
        invariant pos <= i <= |stack| && |elements| == i
        invariant stack == old(stack)
        invariant EndsDown(View(), pos, i) == EndsDown(old(View()), pos, |stack|)
      {
        OnEnd(stack[i - 1]);
        i := i - 1;
      }
      stack := stack[..pos];
      lastTag := if pos > 0 then Some(stack[pos - 1]) else None;
    }

    method ParseEndTag(name: Option<Tag>)
      requires |stack| == |elements|
      modifies this
      ensures View() == EndTag(old(View()), name)
    {
      var pos := 0;
      if name.Some? {
        pos := FindClosest(name.value);
      }
      if pos >= 0 {
        CloseDownTo(pos);
      } else if Lower(name.value) == "br" {
        OnStart(name.value, true);
      } else if Lower(name.value) == "p" {
        OnStart(name.value, false);
        OnEnd(name.value);
      }
    }

    method HandleStartTag(tag: Tag, slash: bool, expectHtml: bool)
      requires Good(View())
      modifies this
      ensures View() == StartTag(old(View()), tag, slash, expectHtml)
    {
      if expectHtml {
        EndTagKeeps(View(), Some("p"));
        if lastTag == Some("p") && tag in NON_PHRASING {
          ParseEndTag(lastTag);
        }
        if tag in LEFT_OPEN && lastTag == Some(tag) {
          ParseEndTag(Some(tag));
        }
      }
      var unary := tag in UNARY || slash;
      if !unary {
        stack := stack + [tag];
        lastTag := Some(tag);
      }
      OnStart(tag, unary);
    }

    /** One token; `threw` if a comment is to be kept where there is no element to keep it in. */
    method Handle(t: Token, o: Options) returns (threw: bool)
      requires Good(View())
      modifies this
      ensures threw <==> Homeless(old(View()), t, o)
      ensures View() == if threw then old(View()) else Take(old(View()), t, o)
    {
      threw := false;
      match t {
        case Skipped =>
        case Remark(text) =>
          if o.keepComments {
            threw := OnComment(text);
          }
        case Close(name) => ParseEndTag(Some(name));
        case Open(name, slash) => HandleStartTag(name, slash, o.expectHtml);
        case Plain(text) =>
          if text != "" {
            OnChars(text);
          }
        case Verbatim(text) =>
          var stackedTag := if lastTag.Some? then Some(Lower(lastTag.value)) else None;
          if text.Some? {
            OnChars(text.value);
          }
          ParseEndTag(stackedTag);
      }
    }

    /** What is found at the front of the text, and the text after it. */
    method Next(html: string, lexer: Lexer) returns (t: Token, rest: string)
      requires FromFront(lexer) && html != ""
      ensures (t, rest) == Found(html, lexer, lastTag)
    {
      if lastTag.Some? && Lower(lastTag.value) in PLAIN_TEXT {
        var found := lexer.raw(html, Lower(lastTag.value));
        t := Verbatim(if found.Some? then Some(found.value.text) else None);
        rest := if found.Some? then html[found.value.length..] else html;
      } else {
        var found := lexer.markup(html);
        t, rest := found.token, html[found.length..];
      }
    }

    /** Where a parse that began at `start` stands after `tokens`, none of which threw. */
    ghost predicate Stands(start: Parse, tokens: seq<Token>, o: Options)
      reads this
    {
      Fine(start, o) && Fine(View(), o) && View() == TakeAll(start, tokens, o) && !Throws(start, tokens, o)
    }

    method HandleNext(t: Token, o: Options, ghost start: Parse, ghost tokens: seq<Token>) returns (threw: bool)
      requires Stands(start, tokens, o)
      modifies this
      ensures threw <==> Homeless(old(View()), t, o)
      ensures threw <==> Throws(start, tokens + [t], o)
      ensures if threw then View() == old(View())
              else Stands(start, tokens + [t], o) && View() == Taken(old(View()), t, o)
    {
      TakeKeeps(View(), t, o);
      TakeOneMore(start, tokens, t, o);
      ThrowsOn(start, tokens, t, o);
      threw := Handle(t, o);
    }

    method AfterToken(t: Token, html: string) returns (rest: string)
      ensures rest == WithoutNewline(html, t, lastTag)
    {
      rest := html;
      if t.Open? && lastTag.Some? && Lower(lastTag.value) in IGNORE_NEWLINE && html != "" && html[0] == '\n' {
        rest := html[1..];
      }
    }

    /** One token, and what is left of the text; `threw`: the token is a comment with no element to keep it in. */
    method OneToken(html: string, lexer: Lexer, o: Options, ghost start: Parse, ghost tokens: seq<Token>)
      returns (threw: bool, rest: string, ghost t: Token)
      requires FromFront(lexer) && html != "" && Stands(start, tokens, o)
      modifies this
      ensures t == Found(html, lexer, old(lastTag)).0 && (threw <==> Homeless(old(View()), t, o))
      ensures threw ==> View() == old(View()) && Throws(start, tokens + [t], o)
      ensures !threw ==> Stands(start, tokens + [t], o) && View() == Taken(old(View()), t, o)
      ensures !threw ==> rest == RestAfter(html, lexer, old(View()), o)
    {
      var found, after := Next(html, lexer);
      t := found;
      threw := HandleNext(found, o, start, tokens);
      rest := after;
      if !threw {
        rest := AfterToken(found, after);
      }
    }

    /** `tokens` have been read, and what is found in the rest of the text makes them `all`. */
    ghost predicate Reads(html: string, lexer: Lexer, o: Options, start: Parse, tokens: seq<Token>, all: seq<Token>)
      requires FromFront(lexer)
      reads this
    {
      Stands(start, tokens, o) && all == tokens + TokensIn(html, lexer, View(), o)
    }

    /** One turn of the loop; `over`: the text got no shorter, so the rest of it was text. */
    method OneTurn(html: string, lexer: Lexer, o: Options, ghost start: Parse, ghost tokens: seq<Token>,
                   ghost all: seq<Token>)
      returns (threw: bool, over: bool, rest: string, ghost t: Token)
      requires FromFront(lexer) && html != "" && Reads(html, lexer, o, start, tokens, all)
      modifies this
      ensures threw ==> Stands(start, tokens, o) && all == tokens + [t] && Throws(start, all, o)
      ensures !threw && over ==> Stands(start, all, o)
      ensures !threw && !over ==> |rest| < |html| && Reads(rest, lexer, o, start, tokens + [t], all)
    {
      ghost var _, _, after := OneTokenRead(html, lexer, View(), o, tokens, all);
      over := false;
      threw, rest, t := OneToken(html, lexer, o, start, tokens);
      if !threw {
        over := |rest| == |html|;
        if over {
          var _ := HandleNext(Plain(html), o, start, tokens + [t]);
        }
      }
    }

    /** The loop over the remaining text. */
    method ReadAll(html0: string, lexer: Lexer, o: Options, ghost start: Parse, ghost all: seq<Token>)
      returns (threw: bool)
      requires FromFront(lexer) && Reads(html0, lexer, o, start, [], all)
      modifies this
      ensures threw <==> Throws(start, all, o)
      ensures if threw then all != [] && Stands(start, all[..|all| - 1], o) else Stands(start, all, o)
    {
      var html := html0;
      ghost var tokens: seq<Token> := [];
      while html != ""
        invariant Reads(html, lexer, o, start, tokens, all)
        decreases |html|
      {
        ghost var t: Token;
        var over: bool;
        threw, over, html, t := OneTurn(html, lexer, o, start, tokens, all);
        if threw {
          assert all[..|all| - 1] == tokens;
          return;
        }
        if over {
          return;
        }
        tokens := tokens + [t];
      }
      threw := false;
      assert tokens + [] == tokens;
    }

    /** The end of the text closes what is still open. */
    method CloseAll(o: Options, ghost start: Parse, ghost tokens: seq<Token>)
      requires Stands(start, tokens, o)
      modifies this
      ensures Outcome(start, tokens, o, false, View())
    {
      EndTagKeeps(View(), None);
      ParseEndTag(None);
    }

    method ReadAndClose(html: string, lexer: Lexer, o: Options, ghost start: Parse, ghost all: seq<Token>)
      returns (threw: bool)
      requires FromFront(lexer) && Reads(html, lexer, o, start, [], all)
      modifies this
      ensures Outcome(start, all, o, threw, View())
    {
      threw := ReadAll(html, lexer, o, start, all);
      if !threw {
        CloseAll(o, start, all);
      }
    }

    lemma NothingRead(html: string, lexer: Lexer, o: Options)
      requires FromFront(lexer) && Fine(View(), o)
      ensures Reads(html, lexer, o, View(), [], TokensIn(html, lexer, View(), o))
    {
      NothingBeside(TokensIn(html, lexer, View(), o));
    }

    /**
     parseHTML.  It ends for every text and every tokeniser.  What it does is what the text's tokens come to, one
     after the other, and it throws exactly when one of them is a comment to be kept outside all elements; if not,
     everything is closed at the end.
     */
    method ParseHTML(html: string, lexer: Lexer, o: Options) returns (threw: bool)
      requires FromFront(lexer) && Fine(View(), o)
      modifies this
      ensures Outcome(old(View()), TokensIn(html, lexer, old(View()), o), o, threw, View())
    {
      NothingRead(html, lexer, o);
      threw := ReadAndClose(html, lexer, o, View(), TokensIn(html, lexer, View(), o));
    }
  }
}
