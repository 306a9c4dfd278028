/** The greedy cursor layout of card text in modules/mtg_generator.py: the
    ability text followed, space permitting, by the flavour text
    (`paste_ability`), and a land's flavour text (`paste_land_abilities`).
    Tokenising (`re.findall(r'(\{[^}]+\}|\S+|\n)', text)`) and glyph
    measurement are outside the model: a text arrives as its tokens with
    their measured widths. */
module CardLayout {

  /** One token of a text: a line break, a word of the given rendered width,
      or (in ability text only) a mana symbol pasted as an image of the given size. */
  datatype Token = Newline | Word(width: nat) | Symbol(width: nat, height: nat)

  datatype Cursor = Cursor(x: int, y: int)

  /** A token drawn with its top-left corner at (x, y). */
  datatype Drawn = Drawn(x: int, y: int, width: nat)

  const XStart: int := 94
  const RightEdge: int := 659
  const LineHeight: int := 32
  /** The flavour text follows the ability text only if its first line starts at or above this y. */
  const FlavourLimit: int := 805

  const AbilityStart: Cursor := Cursor(XStart, 640)
  const LandFlavourStart: Cursor := Cursor(XStart, 800)

  /** Text without mana symbols: the flavour loops draw every token as a word. */
  predicate PlainText(tokens: seq<Token>)
  {
    forall i :: 0 <= i < |tokens| ==> !tokens[i].Symbol?
  }

  /** One iteration of a wrap loop with cursor `c`; `space` is the width of a
      space in the font. A line break moves to the start of the next line and
      draws nothing; a word or symbol that would pass x = 659 first moves to
      the start of the next line (a symbol moves down by its own height), is
      drawn there, and moves the cursor past itself (a word also past one space). */
  function Step(c: Cursor, t: Token, space: nat): (r: (Cursor, seq<Drawn>))
    ensures t.Newline? ==> r.1 == [] && r.0 == Cursor(XStart, c.y + LineHeight)
    ensures !t.Newline? ==> |r.1| == 1 && r.1[0].y == r.0.y && r.1[0].width == t.width
    ensures !t.Newline? ==> (r.1[0].x == XStart || r.1[0].x + t.width <= RightEdge)
    ensures !t.Newline? && c.x + t.width <= RightEdge ==> r.1[0] == Drawn(c.x, c.y, t.width)
    ensures !t.Newline? && c.x + t.width > RightEdge ==>
      r.1[0].x == XStart && r.1[0].y == c.y + (if t.Symbol? then t.height else LineHeight)
    ensures c.y <= r.0.y && r.0.x >= (if t.Newline? then XStart else r.1[0].x + t.width)
  {
    match t
    case Newline => (Cursor(XStart, c.y + LineHeight), [])
    case Word(w) =>
      var at := if c.x + w > RightEdge then Cursor(XStart, c.y + LineHeight) else c;
      (Cursor(at.x + w + space, at.y), [Drawn(at.x, at.y, w)])
    case Symbol(w, h) =>
      var at := if c.x + w > RightEdge then Cursor(XStart, c.y + h) else c;
      (Cursor(at.x + w, at.y), [Drawn(at.x, at.y, w)])
  }

  /** The whole loop: the final cursor and the tokens drawn, in drawing order. */
  function Layout(c: Cursor, tokens: seq<Token>, space: nat): (Cursor, seq<Drawn>)
    decreases |tokens|
  {
    if tokens == [] then (c, [])
    else
      var (next, first) := Step(c, tokens[0], space);
      var (last, rest) := Layout(next, tokens[1..], space);
      (last, first + rest)
  }

  /** The number of tokens that are drawn (every token but the line breaks). */
  function DrawnCount(tokens: seq<Token>): nat
  {
    if tokens == [] then 0 else (if tokens[0].Newline? then 0 else 1) + DrawnCount(tokens[1..])
  }

  /** The widths of the tokens that are drawn (every token but the line breaks), in order. */
  function DrawnWidths(tokens: seq<Token>): seq<nat>
  {
    if tokens == [] then []
    else (if tokens[0].Newline? then [] else [tokens[0].width]) + DrawnWidths(tokens[1..])
  }

  /** Every word and symbol is drawn exactly once, in text order, and line breaks are not drawn:
      the i-th drawn item has the width of the i-th word or symbol;
      the cursor never moves up, and the drawn tokens come top to bottom: each
      is at or below the start and at or above the next one and the final cursor. */
  lemma {:induction false} LayoutGoesDown(c: Cursor, tokens: seq<Token>, space: nat)
    ensures var (last, drawn) := Layout(c, tokens, space);
            |drawn| == DrawnCount(tokens) && |drawn| == |DrawnWidths(tokens)|
            && (forall i :: 0 <= i < |drawn| ==> drawn[i].width == DrawnWidths(tokens)[i])
            && c.y <= last.y
            && (forall i :: 0 <= i < |drawn| ==> c.y <= drawn[i].y <= last.y)
            && (forall i, j :: 0 <= i < j < |drawn| ==> drawn[i].y <= drawn[j].y)
    decreases |tokens|
  {
    if tokens != [] {
      var (next, first) := Step(c, tokens[0], space);
      LayoutGoesDown(next, tokens[1..], space);
    }
  }

  /** Every drawn token starts at the left margin or ends at or before x = 659. */
  lemma {:induction false} LayoutRightEdge(c: Cursor, tokens: seq<Token>, space: nat)
    ensures forall d :: d in Layout(c, tokens, space).1 ==> d.x == XStart || d.x + d.width <= RightEdge
    decreases |tokens|
  {
    if tokens != [] {
      var (next, first) := Step(c, tokens[0], space);
      LayoutRightEdge(next, tokens[1..], space);
      assert Layout(c, tokens, space).1 == first + Layout(next, tokens[1..], space).1;
    }
  }

  /** From a cursor at or right of the left margin nothing is drawn left of
      it, and a token no wider than the text box (565) lies entirely inside it. */
  lemma {:induction false} LayoutInsideBox(c: Cursor, tokens: seq<Token>, space: nat)
    requires c.x >= XStart
    ensures forall d :: d in Layout(c, tokens, space).1 ==> XStart <= d.x
    ensures forall d :: d in Layout(c, tokens, space).1 && d.width <= RightEdge - XStart ==> d.x + d.width <= RightEdge
    decreases |tokens|
  {
    if tokens != [] {
      var (next, first) := Step(c, tokens[0], space);
      if !tokens[0].Newline? {
        assert first[0].x >= XStart;
        assert first[0].width <= RightEdge - XStart ==> first[0].x + first[0].width <= RightEdge;
      }
      LayoutInsideBox(next, tokens[1..], space);
      assert Layout(c, tokens, space).1 == first + Layout(next, tokens[1..], space).1;
    }
  }

  /** A text that fits on the current line is drawn word after word without
      moving down. */
  lemma FitsOnOneLine(c: Cursor, w1: nat, w2: nat, space: nat)
    requires c.x + w1 + space + w2 <= RightEdge
    ensures Layout(c, [Word(w1), Word(w2)], space) ==
            (Cursor(c.x + w1 + space + w2 + space, c.y), [Drawn(c.x, c.y, w1), Drawn(c.x + w1 + space, c.y, w2)])
  {
    var tokens := [Word(w1), Word(w2)];
    var second := Cursor(c.x + w1 + space, c.y);
    var third := Cursor(second.x + w2 + space, c.y);
    var d1 := [Drawn(c.x, c.y, w1)];
    var d2 := [Drawn(second.x, c.y, w2)];
    assert Step(c, Word(w1), space) == (second, d1);
    assert Step(second, Word(w2), space) == (third, d2);
    assert tokens[1..] == [Word(w2)];
    assert [Word(w2)][1..] == [];
    assert Layout(third, [], space) == (third, []);
    assert d2 + [] == d2;
    assert Layout(second, [Word(w2)], space) == (third, d2);
    assert d1 + d2 == [Drawn(c.x, c.y, w1), Drawn(second.x, c.y, w2)];
  }

  /** The layout of a non-empty text is the first token's step followed by the layout of the rest. */
  lemma LayoutUnfold(c: Cursor, tokens: seq<Token>, space: nat)
    requires tokens != []
    ensures var (next, first) := Step(c, tokens[0], space);
            Layout(c, tokens, space) == (Layout(next, tokens[1..], space).0, first + Layout(next, tokens[1..], space).1)
  {
  }

  /** The body of a wrap loop for one token: the new cursor and what is drawn. */
  method StepToken(cursor: Cursor, t: Token, space: nat) returns (next: Cursor, piece: seq<Drawn>)
    ensures (next, piece) == Step(cursor, t, space)
  {
    next := cursor;
    piece := [];
    if t.Newline? {
      next := Cursor(XStart, next.y + LineHeight);
    } else {
      var step := if t.Symbol? then t.height else LineHeight;
      if next.x + t.width > RightEdge {
        next := Cursor(XStart, next.y + step);
      }
      piece := [Drawn(next.x, next.y, t.width)];
      next := Cursor(next.x + t.width + (if t.Symbol? then 0 else space), next.y);
    }
  }

  /** One wrap loop (`for word in words: ...`), run from cursor `start`. */
  method WrapTokens(start: Cursor, tokens: seq<Token>, space: nat) returns (cursor: Cursor, drawn: seq<Drawn>)
    ensures (cursor, drawn) == Layout(start, tokens, space)
  {
    cursor := start;
    drawn := [];
    var i := 0;
    while i < |tokens|
      invariant 0 <= i <= |tokens|
      invariant Layout(cursor, tokens[i..], space).0 == Layout(start, tokens, space).0
      invariant drawn + Layout(cursor, tokens[i..], space).1 == Layout(start, tokens, space).1
    {
      LayoutUnfold(cursor, tokens[i..], space);
      assert tokens[i..][0] == tokens[i] && tokens[i..][1..] == tokens[i + 1..];
      var piece;
      cursor, piece := StepToken(cursor, tokens[i], space);
      ghost var rest := Layout(cursor, tokens[i + 1..], space).1;
      assert drawn + (piece + rest) == (drawn + piece) + rest;
      drawn := drawn + piece;
      i := i + 1;
    }
    assert tokens[i..] == [];
    assert Layout(cursor, tokens[i..], space) == (cursor, []);
    assert drawn + [] == drawn;
  }

  /** `paste_ability`: the ability text from (94, 640), then a line break; the
      flavour text (no mana symbols) is drawn from there only when that line
      starts at or above y = 805. When it is drawn, all of it lies below all
      of the ability text. */
  method PasteAbilityText(ability: seq<Token>, abilitySpace: nat, flavour: seq<Token>, flavourSpace: nat)
    returns (abilityDrawn: seq<Drawn>, flavourShown: bool, flavourDrawn: seq<Drawn>)
    requires PlainText(flavour)
    ensures abilityDrawn == Layout(AbilityStart, ability, abilitySpace).1
    ensures flavourShown <==> Layout(AbilityStart, ability, abilitySpace).0.y + LineHeight <= FlavourLimit
    ensures !flavourShown ==> flavourDrawn == []
    ensures flavourShown ==>
      var below := Cursor(XStart, Layout(AbilityStart, ability, abilitySpace).0.y + LineHeight);
      flavourDrawn == Layout(below, flavour, flavourSpace).1
    ensures forall i, j :: 0 <= i < |abilityDrawn| && 0 <= j < |flavourDrawn| ==>
      abilityDrawn[i].y + LineHeight <= flavourDrawn[j].y
  {
    var cursor;
    cursor, abilityDrawn := WrapTokens(AbilityStart, ability, abilitySpace);
    LayoutGoesDown(AbilityStart, ability, abilitySpace);
    cursor := Cursor(XStart, cursor.y + LineHeight);
    flavourShown := cursor.y <= FlavourLimit;
    flavourDrawn := [];
    if flavourShown {
      var end;
      end, flavourDrawn := WrapTokens(cursor, flavour, flavourSpace);
      LayoutGoesDown(cursor, flavour, flavourSpace);
    }
  }

  /** The flavour text of a land, drawn from (94, 800) below "Tap to add ... to your mana pool.". */
  method PasteLandFlavour(flavour: seq<Token>, space: nat) returns (drawn: seq<Drawn>)
    requires PlainText(flavour)
    ensures drawn == Layout(LandFlavourStart, flavour, space).1
    ensures forall d :: d in drawn ==> d.y >= 800 && XStart <= d.x
  {
    var end;
    end, drawn := WrapTokens(LandFlavourStart, flavour, space);
    LayoutGoesDown(LandFlavourStart, flavour, space);
    LayoutInsideBox(LandFlavourStart, flavour, space);
  }
}
