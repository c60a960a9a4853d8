/**
 * The reaction list of AOC19-14.js: `Node` and `System` (parsing the list,
 * printing it back, and working out how much ORE a quantity of a chemical
 * takes, keeping the leftovers of every reaction for later), and the search
 * for the most FUEL a trillion ORE makes.
 */
module Reactions {
  import opened Wrappers
  import opened Text

  /** A quantity of a chemical, written `7 A`. */
  datatype Term = Term(quantity: int, name: string)

  /** What one run of a reaction yields, and its inputs in the order written. */
  datatype Recipe = Recipe(produced: int, inputs: seq<Term>)

  /**
   * The `outputs` Map: its keys in insertion order (the order `values()`
   * visits them) and the recipe under each key.
   */
  datatype Book = Book(order: seq<string>, recipes: map<string, Recipe>)

  /** What parsing gives: a value, a thrown TypeError, or a NaN quantity (which the model does not follow further). */
  datatype Parse<T> = Parsed(value: T) | Throws | NaN

  /** The ORE that `_react` returns, or why it has no number to return. */
  datatype Cost =
    | Ore(ore: int)
      /** no reaction makes `name`: `product.value` throws a TypeError */
    | Undefined(name: string)
      /** the reaction for `name` yields no positive quantity: the division gives Infinity or NaN */
    | Unmodelled(name: string)
      /** the recursion went deeper than the depth bound */
    | Exhausted

  predicate Distinct<T(==)>(s: seq<T>) {
    forall i, j | 0 <= i < j < |s| :: s[i] != s[j]
  }

  /** The keys are listed once each, and every key is listed. */
  ghost predicate Ordered(b: Book) {
    Distinct(b.order) && forall k :: k in b.recipes <==> k in b.order
  }

  /** `outputs.set(name, recipe)`: a new key goes last, a known key keeps its place and takes the new recipe. */
  function Put(b: Book, name: string, r: Recipe): (p: Book)
    ensures Ordered(b) ==> Ordered(p)
  {
    Book(if name in b.recipes then b.order else b.order + [name], b.recipes[name := r])
  }

  // Parsing (`_parse`, AOC19-14.js:78-105)

  /**
   * `[value, name] = piece.trim().split(' ')`, then `name.trim()` and
   * `parseInt(value.trim())`: None when there is no second word (`name`
   * is undefined and `trim` throws); else the quantity (None for NaN) and
   * the name.
   */
  function ParseTerm(piece: string): Option<(Option<int>, string)> {
    var words := Split(Trim(piece), " ");
    if |words| < 2 then None else Some((ParseInt(Trim(words[0])), Trim(words[1])))
  }

  /** The inputs of a line, one per piece: a TypeError anywhere wins over a NaN anywhere. */
  function ParseTerms(pieces: seq<string>): Parse<seq<Term>>
    decreases |pieces|
  {
    if |pieces| == 0 then Parsed([])
    else
      var init := ParseTerms(pieces[..|pieces| - 1]);
      var last := ParseTerm(pieces[|pieces| - 1]);
      if init.Throws? || last.None? then Throws
      else if init.NaN? || last.value.0.None? then NaN
      else Parsed(init.value + [Term(last.value.0.value, last.value.1)])
  }

  /** One line `inputs => output`: its output name and recipe. */
  function ParseLine(line: string): Parse<(string, Recipe)> {
    var parts := Split(line, "=>");
    if |parts| < 2 then Throws
    else
      var output := ParseTerm(parts[1]);
      if output.None? then Throws
      else
        var inputs := ParseTerms(Split(Trim(parts[0]), ","));
        if inputs.Throws? then Throws
        else if inputs.NaN? || output.value.0.None? then NaN
        else Parsed((output.value.1, Recipe(output.value.0.value, inputs.value)))
  }

  /** The `outputs` Map that `_parse` builds from the lines, in order. */
  function ParseLines(lines: seq<string>): Parse<Book>
    decreases |lines|
  {
    if |lines| == 0 then Parsed(Book([], map[]))
    else
      var before := ParseLines(lines[..|lines| - 1]);
      var line := ParseLine(lines[|lines| - 1]);
      if before.Throws? || line.Throws? then Throws
      else if before.NaN? || line.NaN? then NaN
      else Parsed(Put(before.value, line.value.0, line.value.1))
  }

  /** Whatever the lines, a parsed list has its keys listed once each. */
  lemma {:induction false} ParsedIsOrdered(lines: seq<string>)
    requires ParseLines(lines).Parsed?
    ensures Ordered(ParseLines(lines).value)
    decreases |lines|
  {
    if |lines| > 0 {
      ParsedIsOrdered(lines[..|lines| - 1]);
    }
  }

  // Printing (`toString`, AOC19-14.js:107-126)

  /** `component.value + ' ' + component.name`. */
  function TermText(t: Term): string {
    Decimal(t.quantity) + " " + t.name
  }

  /** The text of the first `count` inputs, each followed by `, ` unless it is the last input. */
  function Listing(inputs: seq<Term>, count: nat): string
    requires count <= |inputs|
  {
    if count == 0 then ""
    else Listing(inputs, count - 1) + TermText(inputs[count - 1]) + (if count < |inputs| then ", " else "")
  }

  /** One line of the listing: inputs, arrow, output. */
  function LineText(name: string, r: Recipe): string {
    Listing(r.inputs, |r.inputs|) + " => " + TermText(Term(r.produced, name))
  }

  /** The lines of the first `count` keys, before the final `trim`. */
  function Lines(b: Book, count: nat): string
    requires count <= |b.order| && forall k | k in b.order :: k in b.recipes
  {
    if count == 0 then "" else Lines(b, count - 1) + LineText(b.order[count - 1], b.recipes[b.order[count - 1]]) + "\n"
  }

  /** `toString()`: every line, the whole then trimmed. */
  function Render(b: Book): string
    requires forall k | k in b.order :: k in b.recipes
  {
    Trim(Lines(b, |b.order|))
  }

  /** A chemical's name that printing and parsing carry unchanged: some characters, none of them white space, `,` or `=`. */
  predicate LegalName(n: string) {
    |n| > 0 && forall i | 0 <= i < |n| :: !IsSpace(n[i]) && n[i] != ',' && n[i] != '='
  }

  /** A list that `toString` prints in a form `_parse` reads back: at least one reaction, each with at least one input, all names legal. */
  ghost predicate Printable(b: Book) {
    Ordered(b) && |b.order| > 0 &&
    forall k | k in b.recipes :: LegalName(k) && |b.recipes[k].inputs| > 0 &&
      forall t | t in b.recipes[k].inputs :: LegalName(t.name)
  }

  /** A legal name holds no white space, comma or `=`. */
  lemma NameLacks(n: string, c: char)
    requires LegalName(n) && (IsSpace(c) || c == ',' || c == '=')
    ensures c !in n
  {
    assert forall i | 0 <= i < |n| :: n[i] != c;
  }

  /** The text of an input holds no comma, no `=` and no line break, and neither starts nor ends with white space. */
  lemma TermLacks(t: Term, c: char)
    requires LegalName(t.name) && (c == ',' || c == '=' || c == '\n')
    ensures c !in TermText(t) && |TermText(t)| > 0
    ensures !IsSpace(TermText(t)[0]) && !IsSpace(TermText(t)[|TermText(t)| - 1])
  {
    var d := Decimal(t.quantity);
    DecimalLacks(t.quantity, c);
    NameLacks(t.name, c);
    DecimalTrimmed(t.quantity);
    assert TermText(t) == d + " " + t.name;
    assert TermText(t)[0] == d[0];
  }

  /** One input's text, with or without the space that followed its comma, parses back to the input. */
  lemma TermRoundTrip(t: Term, space: string)
    requires LegalName(t.name) && (space == "" || space == " ")
    ensures ParseTerm(space + TermText(t)) == Some((Some(t.quantity), t.name))
  {
    TermTrim(t, space);
    TermWords(t);
    DecimalTrimmed(t.quantity);
    TrimmedAlready(t.name);
    ParseDecimal(t.quantity);
    TermOfWords(space + TermText(t), TermText(t), Decimal(t.quantity), t.name, t.quantity);
  }

  /** Trimming an input's text, with or without a leading space, gives the text. */
  lemma TermTrim(t: Term, space: string)
    requires LegalName(t.name) && (space == "" || space == " ")
    ensures Trim(space + TermText(t)) == TermText(t)
  {
    TermLacks(t, ',');
    TrimLeading(space, TermText(t));
  }

  /** An input's text is two words: its quantity and its name. */
  lemma TermWords(t: Term)
    requires LegalName(t.name)
    ensures Split(TermText(t), " ") == [Decimal(t.quantity), t.name]
  {
    DecimalLacks(t.quantity, ' ');
    NameLacks(t.name, ' ');
    SplitTwo(Decimal(t.quantity), " ", t.name);
  }

  /** A piece whose trim is two words, a number and a name, each its own trim, parses to them. */
  lemma TermOfWords(piece: string, text: string, number: string, name: string, quantity: int)
    requires Trim(piece) == text && Split(text, " ") == [number, name]
    requires Trim(number) == number && Trim(name) == name && ParseInt(number) == Some(quantity)
    ensures ParseTerm(piece) == Some((Some(quantity), name))
  { }

  /** The pieces `split(',')` cuts a listing into: each input's text, after the first with the space that followed the comma. */
  function Pieces(inputs: seq<Term>): (pieces: seq<string>)
    ensures |pieces| == |inputs|
    decreases |inputs|
  {
    if |inputs| == 0 then []
    else Pieces(inputs[..|inputs| - 1]) + [(if |inputs| == 1 then "" else " ") + TermText(inputs[|inputs| - 1])]
  }

  /** `, ` then a text is `,` then the text after a space. */
  lemma CommaSpace(before: string, text: string)
    ensures before + ", " + text == before + "," + (" " + text)
  { }

  /** The listing built input by input is the pieces joined by commas, with `, ` still to come before a further input. */
  lemma {:induction false} ListingPieces(inputs: seq<Term>, count: nat)
    requires 0 < count <= |inputs|
    ensures Listing(inputs, count) == Join(Pieces(inputs[..count]), ",") + (if count < |inputs| then ", " else "")
    decreases count
  {
    if count == 1 {
      ListingFirst(inputs);
    } else {
      ListingPieces(inputs, count - 1);
      ListingNext(inputs, count);
    }
  }

  /** The pieces of a prefix one longer: the pieces before, and the new input's text after a space unless it is the first. */
  lemma PiecesSnoc(inputs: seq<Term>, count: nat)
    requires 0 < count <= |inputs|
    ensures Pieces(inputs[..count]) == Pieces(inputs[..count - 1]) + [(if count == 1 then "" else " ") + TermText(inputs[count - 1])]
  {
    assert inputs[..count][..count - 1] == inputs[..count - 1];
  }

  /** The listing of the first input is its text, with `, ` after it when more follow. */
  lemma ListingFirst(inputs: seq<Term>)
    requires 0 < |inputs|
    ensures Listing(inputs, 1) == Join(Pieces(inputs[..1]), ",") + (if 1 < |inputs| then ", " else "")
  {
    var text := TermText(inputs[0]);
    PiecesSnoc(inputs, 1);
    assert Pieces(inputs[..0]) == [];
    assert "" + text == text;
    assert [] + [text] == [text];
    assert Listing(inputs, 0) == "";
  }

  /** A listing one input longer, from the listing before it. */
  lemma ListingNext(inputs: seq<Term>, count: nat)
    requires 1 < count <= |inputs|
    requires Listing(inputs, count - 1) == Join(Pieces(inputs[..count - 1]), ",") + ", "
    ensures Listing(inputs, count) == Join(Pieces(inputs[..count]), ",") + (if count < |inputs| then ", " else "")
  {
    var text := TermText(inputs[count - 1]);
    var before := Pieces(inputs[..count - 1]);
    PiecesSnoc(inputs, count);
    JoinSnoc(before, " " + text, ",");
    CommaSpace(Join(before, ","), text);
  }

  /** The pieces of a listing parse back to its inputs. */
  lemma {:induction false} PiecesParse(inputs: seq<Term>)
    requires forall t | t in inputs :: LegalName(t.name)
    ensures ParseTerms(Pieces(inputs)) == Parsed(inputs)
    decreases |inputs|
  {
    if |inputs| > 0 {
      var n := |inputs|;
      var init := inputs[..n - 1];
      assert forall t | t in init :: t in inputs;
      PiecesParse(init);
      assert inputs[n - 1] in inputs;
      var space := if n == 1 then "" else " ";
      TermRoundTrip(inputs[n - 1], space);
      TermsSnoc(Pieces(init), space + TermText(inputs[n - 1]), init, inputs[n - 1]);
      Unsnoc(inputs);
    }
  }

  /** One more piece that parses to an input adds that input to what the pieces before it parse to. */
  lemma TermsSnoc(pieces: seq<string>, piece: string, terms: seq<Term>, t: Term)
    requires ParseTerms(pieces) == Parsed(terms) && ParseTerm(piece) == Some((Some(t.quantity), t.name))
    ensures ParseTerms(pieces + [piece]) == Parsed(terms + [t])
  {
    Snoc(pieces, piece);
  }

  /** No piece of a listing holds a comma. */
  lemma {:induction false} PiecesLack(inputs: seq<Term>)
    requires forall t | t in inputs :: LegalName(t.name)
    ensures forall i | 0 <= i < |Pieces(inputs)| :: ',' !in Pieces(inputs)[i]
    decreases |inputs|
  {
    if |inputs| > 0 {
      var n := |inputs|;
      var init := inputs[..n - 1];
      assert forall t | t in init :: t in inputs;
      PiecesLack(init);
      assert inputs[n - 1] in inputs;
      TermLacks(inputs[n - 1], ',');
    }
  }

  /** A listing holds none of the characters its inputs' texts lack, and starts with the first input's text. */
  lemma {:induction false} ListingLacks(inputs: seq<Term>, count: nat, c: char)
    requires 0 < count <= |inputs| && (c == '=' || c == '\n')
    requires forall t | t in inputs :: LegalName(t.name)
    ensures c !in Listing(inputs, count) && |Listing(inputs, count)| > 0
    ensures Listing(inputs, count)[0] == TermText(inputs[0])[0]
    decreases count
  {
    assert inputs[count - 1] in inputs;
    TermLacks(inputs[count - 1], c);
    if count > 1 {
      ListingLacks(inputs, count - 1, c);
    }
  }

  /** A line as `split('\\n')` leaves it: no line break, and something other than white space at both ends. */
  predicate Plain(line: string) {
    '\n' !in line && |line| > 0 && !IsSpace(line[0]) && !IsSpace(line[|line| - 1])
  }

  /** A printed line is plain. */
  lemma LineShape(name: string, r: Recipe)
    requires LegalName(name) && |r.inputs| > 0 && forall t | t in r.inputs :: LegalName(t.name)
    ensures Plain(LineText(name, r))
  {
    var n := |r.inputs|;
    var listing := Listing(r.inputs, n);
    ListingLacks(r.inputs, n, '\n');
    assert r.inputs[0] in r.inputs;
    TermLacks(r.inputs[0], '\n');
    var output := Term(r.produced, name);
    TermLacks(output, '\n');
    var line := LineText(name, r);
    assert line == listing + " => " + TermText(output);
    assert line[0] == listing[0];
  }

  /** ` => ` is `=>` between two spaces. */
  lemma Arrow(before: string, after: string)
    ensures before + " => " + after == before + " " + "=>" + (" " + after)
  { }

  /** A printed line splits at its arrow into the listing with a space, and a space with the output. */
  lemma LineSplit(name: string, r: Recipe)
    requires LegalName(name) && |r.inputs| > 0 && forall t | t in r.inputs :: LegalName(t.name)
    ensures Split(LineText(name, r), "=>") == [Listing(r.inputs, |r.inputs|) + " ", " " + TermText(Term(r.produced, name))]
  {
    var listing := Listing(r.inputs, |r.inputs|);
    var output := Term(r.produced, name);
    TermLacks(output, '=');
    ListingLacks(r.inputs, |r.inputs|, '=');
    Arrow(listing, TermText(output));
    SplitTwo(listing + " ", "=>", " " + TermText(output));
  }

  /** The listing starts and ends with something other than white space. */
  lemma ListingEnds(inputs: seq<Term>)
    requires |inputs| > 0 && forall t | t in inputs :: LegalName(t.name)
    ensures var listing := Listing(inputs, |inputs|); |listing| > 0 && !IsSpace(listing[0]) && !IsSpace(listing[|listing| - 1])
  {
    var n := |inputs|;
    ListingLacks(inputs, n, '=');
    assert inputs[0] in inputs && inputs[n - 1] in inputs;
    TermLacks(inputs[0], ',');
    TermLacks(inputs[n - 1], ',');
    var last := TermText(inputs[n - 1]);
    Whole(Listing(inputs, n - 1) + last);
  }

  /** The listing with the space before the arrow trims to the listing. */
  lemma ListingTrim(inputs: seq<Term>)
    requires |inputs| > 0 && forall t | t in inputs :: LegalName(t.name)
    ensures Trim(Listing(inputs, |inputs|) + " ") == Listing(inputs, |inputs|)
  {
    ListingEnds(inputs);
    TrimTrailing(Listing(inputs, |inputs|), " ");
  }

  /** The listing splits at its commas into its pieces. */
  lemma ListingSplit(inputs: seq<Term>)
    requires |inputs| > 0 && forall t | t in inputs :: LegalName(t.name)
    ensures Split(Listing(inputs, |inputs|), ",") == Pieces(inputs)
  {
    var n := |inputs|;
    ListingPieces(inputs, n);
    Whole(inputs);
    Whole(Join(Pieces(inputs), ","));
    PiecesLack(inputs);
    SplitJoin(Pieces(inputs), ",");
  }

  /** A line made of a listing that parses to the inputs, the arrow, and the output's text parses to that reaction. */
  lemma LineOfParts(line: string, left: string, right: string, pieces: seq<string>, inputs: seq<Term>, name: string, produced: int)
    requires Split(line, "=>") == [left, right] && ParseTerm(right) == Some((Some(produced), name))
    requires Split(Trim(left), ",") == pieces && ParseTerms(pieces) == Parsed(inputs)
    ensures ParseLine(line) == Parsed((name, Recipe(produced, inputs)))
  { }

  /** One printed line parses back to its output name and recipe. */
  lemma LineRoundTrip(name: string, r: Recipe)
    requires LegalName(name) && |r.inputs| > 0 && forall t | t in r.inputs :: LegalName(t.name)
    ensures ParseLine(LineText(name, r)) == Parsed((name, r))
  {
    var listing := Listing(r.inputs, |r.inputs|);
    LineSplit(name, r);
    TermRoundTrip(Term(r.produced, name), " ");
    ListingTrim(r.inputs);
    ListingSplit(r.inputs);
    PiecesParse(r.inputs);
    LineOfParts(LineText(name, r), listing + " ", " " + TermText(Term(r.produced, name)), Pieces(r.inputs), r.inputs, name, r.produced);
  }

  /** The printed lines of the first `count` keys, before they are joined. */
  function LineTexts(b: Book, count: nat): (lines: seq<string>)
    requires count <= |b.order| && forall k | k in b.order :: k in b.recipes
    ensures |lines| == count
  {
    if count == 0 then [] else LineTexts(b, count - 1) + [LineText(b.order[count - 1], b.recipes[b.order[count - 1]])]
  }

  /** The text built line by line is the lines joined by line breaks, with a last line break. */
  lemma {:induction false} LinesJoin(b: Book, count: nat)
    requires 0 < count <= |b.order| && forall k | k in b.order :: k in b.recipes
    ensures Lines(b, count) == Join(LineTexts(b, count), "\n") + "\n"
    decreases count
  {
    var line := LineText(b.order[count - 1], b.recipes[b.order[count - 1]]);
    if count == 1 {
      assert LineTexts(b, 1) == [] + [line] == [line];
      assert Lines(b, 1) == "" + line + "\n";
      assert "" + line == line;
    } else {
      LinesJoin(b, count - 1);
      JoinSnoc(LineTexts(b, count - 1), line, "\n");
    }
  }

  /** Every line is plain. */
  predicate AllPlain(lines: seq<string>) {
    forall i | 0 <= i < |lines| :: Plain(lines[i])
  }

  /** Plain lines with one more plain line are plain lines. */
  lemma PlainSnoc(lines: seq<string>, line: string)
    requires AllPlain(lines) && Plain(line)
    ensures AllPlain(lines + [line])
  { }

  /** Every printed line is plain. */
  lemma {:induction false} LineTextsShape(b: Book, count: nat)
    requires Printable(b) && count <= |b.order|
    ensures AllPlain(LineTexts(b, count))
    decreases count
  {
    if count > 0 {
      LineTextsShape(b, count - 1);
      var k := b.order[count - 1];
      PrintableLine(b, k);
      PlainSnoc(LineTexts(b, count - 1), LineText(k, b.recipes[k]));
    }
  }

  /** The line of a listed key in a printable list is plain. */
  lemma PrintableLine(b: Book, k: string)
    requires Printable(b) && k in b.order
    ensures k in b.recipes && Plain(LineText(k, b.recipes[k]))
  {
    LineShape(k, b.recipes[k]);
  }

  /** The first `count` keys of a list with their recipes. */
  function Prefix(b: Book, count: nat): Book
    requires count <= |b.order|
  {
    Book(b.order[..count], map k | k in b.order[..count] && k in b.recipes :: b.recipes[k])
  }

  /** Putting the next key's recipe after the first `count - 1` keys gives the first `count`. */
  lemma PrefixPut(b: Book, count: nat)
    requires Ordered(b) && 0 < count <= |b.order|
    ensures b.order[count - 1] in b.recipes
    ensures Put(Prefix(b, count - 1), b.order[count - 1], b.recipes[b.order[count - 1]]) == Prefix(b, count)
  {
    var k := b.order[count - 1];
    var prior := b.order[..count - 1];
    forall i | 0 <= i < |prior|
      ensures prior[i] != k
    {
      assert prior[i] == b.order[i];
    }
    var before := Prefix(b, count - 1);
    assert k !in before.recipes;
    assert b.order[..count] == prior + [k];
    var after := Put(before, k, b.recipes[k]);
    assert after.order == b.order[..count];
    forall x
      ensures x in after.recipes <==> x in Prefix(b, count).recipes
    {
      assert x in b.order[..count] <==> x in prior || x == k;
    }
    assert after.recipes == Prefix(b, count).recipes;
  }

  /** One more line that parses to a reaction puts that reaction into what the lines before it parse to. */
  lemma LinesSnoc(lines: seq<string>, line: string, before: Book, name: string, r: Recipe)
    requires ParseLines(lines) == Parsed(before) && ParseLine(line) == Parsed((name, r))
    ensures ParseLines(lines + [line]) == Parsed(Put(before, name, r))
  {
    Snoc(lines, line);
  }

  /** Parsing the first `count` printed lines gives back the first `count` reactions. */
  lemma {:induction false} PrefixRoundTrip(b: Book, count: nat)
    requires Printable(b) && count <= |b.order|
    ensures ParseLines(LineTexts(b, count)) == Parsed(Prefix(b, count))
    decreases count
  {
    if count == 0 {
      assert Prefix(b, 0).recipes == map[];
    } else {
      PrefixRoundTrip(b, count - 1);
      PrefixPut(b, count);
      var k := b.order[count - 1];
      LineRoundTrip(k, b.recipes[k]);
      LinesSnoc(LineTexts(b, count - 1), LineText(k, b.recipes[k]), Prefix(b, count - 1), k, b.recipes[k]);
    }
  }

  /** All the keys of a list with their recipes are the list. */
  lemma PrefixAll(b: Book)
    requires Ordered(b)
    ensures Prefix(b, |b.order|) == b
  {
    Whole(b.order);
    assert Prefix(b, |b.order|).recipes == b.recipes;
  }

  /** `toString()` is the printed lines joined by line breaks. */
  lemma RenderJoins(b: Book)
    requires Printable(b)
    ensures Render(b) == Join(LineTexts(b, |b.order|), "\n")
    ensures forall i | 0 <= i < |b.order| :: Plain(LineTexts(b, |b.order|)[i])
  {
    var n := |b.order|;
    var lines := LineTexts(b, n);
    LineTextsShape(b, n);
    assert AllPlain(lines);
    LinesJoin(b, n);
    JoinEnds(lines, "\n");
    TrimTrailing(Join(lines, "\n"), "\n");
  }

  /** Parsing the lines of `toString()` gives back the list it printed, keys in the same order. */
  lemma ParseRendered(b: Book)
    requires Printable(b)
    ensures ParseLines(Split(Render(b), "\n")) == Parsed(b)
  {
    var n := |b.order|;
    RenderJoins(b);
    SplitJoin(LineTexts(b, n), "\n");
    PrefixRoundTrip(b, n);
    PrefixAll(b);
  }

  // Resolving (`_react`, AOC19-14.js:37-76)

  /** `Math.ceil(a / b)`: the least multiplier whose `b`-sized batches cover `a` (for a negative `b`, bring it down to `a`). */
  function CeilDiv(a: int, b: int): (q: int)
    requires b != 0
    ensures b > 0 ==> q * b >= a && (q - 1) * b < a
    ensures b < 0 ==> q * b <= a && (q - 1) * b > a
  {
    if b > 0 then -((-a) / b) else -(a / (-b))
  }

  /** What `multiplier` runs of a reaction yielding `produced` leave over once `need` is taken: `produced * multiplier - need`. */
  function Leftover(need: int, produced: int): (r: int)
    requires produced != 0
    ensures produced > 0 ==> 0 <= r < produced
    ensures produced < 0 ==> produced < r <= 0
  {
    produced * CeilDiv(need, produced) - need
  }

  /**
   * How an ORE input enters the running total: `AsWritten` sets the total
   * to that input's ORE, as AOC19-14.js:62 does (`value = ...`); `Summed`
   * adds it, as every other input is added (AOC19-14.js:66).
   */
  datatype Tally = AsWritten | Summed

  /** `_isBaseReaction(node)`: the input is ORE itself. */
  predicate IsBase(t: Term) {
    t.name == "ORE"
  }

  /**
   * `_react(surplus, name, amount)`: the ORE that `amount` of `name` takes,
   * and the surplus Map afterwards. A stored surplus that covers the amount
   * is drawn on and nothing is made; otherwise the surplus is used up, the
   * reaction runs `multiplier` times, what it leaves over is stored and its
   * inputs are resolved in order. `depth` bounds the recursion (a cyclic
   * list recurses without end in JavaScript).
   */
  function Resolve(tally: Tally, book: map<string, Recipe>, surplus: map<string, int>, name: string, amount: int, depth: nat): (Cost, map<string, int>)
    decreases depth, 0
  {
    if name in surplus && surplus[name] >= amount then (Ore(0), surplus[name := surplus[name] - amount])
    else
      var need := if name in surplus then amount - surplus[name] else amount;
      if name !in book then (Undefined(name), surplus)
      else if book[name].produced == 0 then (Unmodelled(name), surplus)
      else if depth == 0 then (Exhausted, surplus)
      else
        var produced := book[name].produced;
        Gather(tally, book, surplus[name := Leftover(need, produced)], book[name].inputs, CeilDiv(need, produced), 0, depth - 1)
  }

  /** The loop over a reaction's inputs: `value` so far, then the rest of the inputs, each `multiplier` times. */
  function Gather(tally: Tally, book: map<string, Recipe>, surplus: map<string, int>, inputs: seq<Term>, multiplier: int, value: int, depth: nat): (Cost, map<string, int>)
    decreases depth, 1, |inputs|
  {
    if |inputs| == 0 then (Ore(value), surplus)
    else if IsBase(inputs[0]) then
      var ore := multiplier * inputs[0].quantity;
      Gather(tally, book, surplus, inputs[1..], multiplier, if tally == AsWritten then ore else value + ore, depth)
    else
      var (cost, after) := Resolve(tally, book, surplus, inputs[0].name, inputs[0].quantity * multiplier, depth);
      if !cost.Ore? then (cost, after)
      else Gather(tally, book, after, inputs[1..], multiplier, value + cost.ore, depth)
  }

  /** `react(name, amount)`: `_react` from an empty surplus Map. */
  function React(tally: Tally, book: map<string, Recipe>, name: string, amount: int, depth: nat): Cost {
    Resolve(tally, book, map[], name, amount, depth).0
  }

  /** Every reaction yields a positive quantity and takes no negative quantity of anything. */
  ghost predicate NonNegative(book: map<string, Recipe>) {
    forall k | k in book :: book[k].produced > 0 && forall t | t in book[k].inputs :: t.quantity >= 0
  }

  /** No stored surplus is negative. */
  ghost predicate NoDebt(surplus: map<string, int>) {
    forall k | k in surplus :: surplus[k] >= 0
  }

  /**
   * A stored surplus that covers the amount is drawn on and nothing is
   * made, whatever the list and the bound; taking `a` and then `b` from it
   * is taking `a + b` at once.
   */
  lemma SurplusCovers(tally: Tally, book: map<string, Recipe>, surplus: map<string, int>, name: string, a: int, b: int, depth: nat)
    requires name in surplus && a >= 0 && b >= 0 && surplus[name] >= a + b
    ensures Resolve(tally, book, surplus, name, a, depth) == (Ore(0), surplus[name := surplus[name] - a])
    ensures var first := Resolve(tally, book, surplus, name, a, depth).1;
      Resolve(tally, book, first, name, b, depth) == Resolve(tally, book, surplus, name, a + b, depth)
  {
    var first := surplus[name := surplus[name] - a];
    assert first[name := first[name] - b] == surplus[name := surplus[name] - (a + b)];
  }

  /**
   * For a list of non-negative reactions and a non-negative amount, the
   * surplus never goes negative and the ORE is never negative.
   */
  lemma {:induction false} ResolveNonNegative(tally: Tally, book: map<string, Recipe>, surplus: map<string, int>, name: string, amount: int, depth: nat)
    requires NonNegative(book) && NoDebt(surplus) && amount >= 0
    ensures NoDebt(Resolve(tally, book, surplus, name, amount, depth).1)
    ensures Resolve(tally, book, surplus, name, amount, depth).0.Ore? ==> Resolve(tally, book, surplus, name, amount, depth).0.ore >= 0
    decreases depth, 0
  {
    if name in surplus && surplus[name] >= amount {
    } else if name in book && depth > 0 {
      var need := if name in surplus then amount - surplus[name] else amount;
      var produced := book[name].produced;
      GatherNonNegative(tally, book, surplus[name := Leftover(need, produced)], book[name].inputs, CeilDiv(need, produced), 0, depth - 1);
    }
  }

  /**
   * The loop over the inputs keeps the surplus free of debt and the ORE
   * non-negative; when every input's ORE is added, the result is at least
   * the ORE already counted.
   */
  lemma {:induction false} GatherNonNegative(tally: Tally, book: map<string, Recipe>, surplus: map<string, int>, inputs: seq<Term>, multiplier: int, value: int, depth: nat)
    requires NonNegative(book) && NoDebt(surplus) && multiplier >= 0 && value >= 0
    requires forall t | t in inputs :: t.quantity >= 0
    ensures NoDebt(Gather(tally, book, surplus, inputs, multiplier, value, depth).1)
    ensures Gather(tally, book, surplus, inputs, multiplier, value, depth).0.Ore? ==> Gather(tally, book, surplus, inputs, multiplier, value, depth).0.ore >= 0
    ensures tally == Summed && Gather(tally, book, surplus, inputs, multiplier, value, depth).0.Ore? ==>
      Gather(tally, book, surplus, inputs, multiplier, value, depth).0.ore >= value
    decreases depth, 1, |inputs|
  {
    if |inputs| > 0 {
      assert inputs[0] in inputs;
      assert forall t | t in inputs[1..] :: t in inputs;
      if IsBase(inputs[0]) {
        var ore := multiplier * inputs[0].quantity;
        GatherNonNegative(tally, book, surplus, inputs[1..], multiplier, if tally == AsWritten then ore else value + ore, depth);
      } else {
        ResolveNonNegative(tally, book, surplus, inputs[0].name, inputs[0].quantity * multiplier, depth);
        var (cost, after) := Resolve(tally, book, surplus, inputs[0].name, inputs[0].quantity * multiplier, depth);
        if cost.Ore? {
          GatherNonNegative(tally, book, after, inputs[1..], multiplier, value + cost.ore, depth);
        }
      }
    }
  }

  /** A deeper bound changes nothing once the recursion fits in the shallower one. */
  lemma {:induction false} ResolveDeeper(tally: Tally, book: map<string, Recipe>, surplus: map<string, int>, name: string, amount: int, depth: nat, more: nat)
    requires depth <= more && !Resolve(tally, book, surplus, name, amount, depth).0.Exhausted?
    ensures Resolve(tally, book, surplus, name, amount, more) == Resolve(tally, book, surplus, name, amount, depth)
    decreases depth, 0
  {
    if name in surplus && surplus[name] >= amount {
    } else if name in book && book[name].produced != 0 && depth > 0 {
      var need := if name in surplus then amount - surplus[name] else amount;
      var produced := book[name].produced;
      GatherDeeper(tally, book, surplus[name := Leftover(need, produced)], book[name].inputs, CeilDiv(need, produced), 0, depth - 1, more - 1);
    }
  }

  /** A deeper bound changes nothing in the loop over the inputs once it fits in the shallower one. */
  lemma {:induction false} GatherDeeper(tally: Tally, book: map<string, Recipe>, surplus: map<string, int>, inputs: seq<Term>, multiplier: int, value: int, depth: nat, more: nat)
    requires depth <= more && !Gather(tally, book, surplus, inputs, multiplier, value, depth).0.Exhausted?
    ensures Gather(tally, book, surplus, inputs, multiplier, value, more) == Gather(tally, book, surplus, inputs, multiplier, value, depth)
    decreases depth, 1, |inputs|
  {
    if |inputs| > 0 {
      if IsBase(inputs[0]) {
        var ore := multiplier * inputs[0].quantity;
        GatherDeeper(tally, book, surplus, inputs[1..], multiplier, if tally == AsWritten then ore else value + ore, depth, more);
      } else {
        var amount := inputs[0].quantity * multiplier;
        ResolveDeeper(tally, book, surplus, inputs[0].name, amount, depth, more);
        var (cost, after) := Resolve(tally, book, surplus, inputs[0].name, amount, depth);
        if cost.Ore? {
          GatherDeeper(tally, book, after, inputs[1..], multiplier, value + cost.ore, depth, more);
        }
      }
    }
  }

  /** Nothing of a chemical costs no ORE, unless resolving it fails, and the surplus stays free of debt. */
  lemma {:induction false} NothingCostsNothing(tally: Tally, book: map<string, Recipe>, surplus: map<string, int>, name: string, depth: nat)
    requires NoDebt(surplus)
    ensures NoDebt(Resolve(tally, book, surplus, name, 0, depth).1)
    ensures Resolve(tally, book, surplus, name, 0, depth).0 == Ore(0) || !Resolve(tally, book, surplus, name, 0, depth).0.Ore?
    decreases depth, 0
  {
    if name in surplus && surplus[name] >= 0 {
    } else if name in book && book[name].produced != 0 && depth > 0 {
      var produced := book[name].produced;
      GatherNothing(tally, book, surplus[name := Leftover(0, produced)], book[name].inputs, depth - 1);
    }
  }

  /** Zero runs of a reaction cost no ORE, unless resolving an input fails, and the surplus stays free of debt. */
  lemma {:induction false} GatherNothing(tally: Tally, book: map<string, Recipe>, surplus: map<string, int>, inputs: seq<Term>, depth: nat)
    requires NoDebt(surplus)
    ensures NoDebt(Gather(tally, book, surplus, inputs, 0, 0, depth).1)
    ensures Gather(tally, book, surplus, inputs, 0, 0, depth).0 == Ore(0) || !Gather(tally, book, surplus, inputs, 0, 0, depth).0.Ore?
    decreases depth, 1, |inputs|
  {
    if |inputs| > 0 {
      if IsBase(inputs[0]) {
        GatherNothing(tally, book, surplus, inputs[1..], depth);
      } else {
        NothingCostsNothing(tally, book, surplus, inputs[0].name, depth);
        var (cost, after) := Resolve(tally, book, surplus, inputs[0].name, 0, depth);
        if cost.Ore? {
          GatherNothing(tally, book, after, inputs[1..], depth);
        }
      }
    }
  }

  /** A list where FUEL takes 7 A and then 1 ORE, and 10 A take 10 ORE. */
  function MixedBook(): map<string, Recipe> {
    map["A" := Recipe(10, [Term(10, "ORE")]), "FUEL" := Recipe(1, [Term(7, "A"), Term(1, "ORE")])]
  }

  /**
   * As written, the ORE input that comes after A sets the running total to
   * its own 1 ORE and drops the 10 ORE that A took: the loop returns less
   * than the ORE it had already counted. Adding it gives 11.
   */
  lemma OreOverwriteDropsInputs(book: map<string, Recipe>)
    requires book == MixedBook()
    ensures Gather(AsWritten, book, map["FUEL" := 0, "A" := 3], [Term(1, "ORE")], 1, 10, 1).0 == Ore(1)
    ensures React(AsWritten, book, "FUEL", 1, 2) == Ore(1)
    ensures React(Summed, book, "FUEL", 1, 2) == Ore(11)
  {
    var afterFuel := map["FUEL" := 0];
    var afterA := map["FUEL" := 0, "A" := 3];
    assert IsBase(Term(10, "ORE")) && !IsBase(Term(7, "A"));
    assert CeilDiv(1, 1) == 1 && Leftover(1, 1) == 0;
    assert CeilDiv(7, 10) == 1 && Leftover(7, 10) == 3;
    forall tally: Tally
      ensures Resolve(tally, book, afterFuel, "A", 7, 1) == (Ore(10), afterA)
    {
      assert afterFuel["A" := 3] == afterA;
      assert Gather(tally, book, afterA, [], 1, 10, 0) == (Ore(10), afterA);
      assert [Term(10, "ORE")][1..] == [];
    }
    assert [Term(7, "A"), Term(1, "ORE")][1..] == [Term(1, "ORE")];
    assert [Term(1, "ORE")][1..] == [];
    assert map[]["FUEL" := 0] == afterFuel;
    assert Resolve(AsWritten, book, map[], "FUEL", 1, 2).0 == Ore(1);
    assert Resolve(Summed, book, map[], "FUEL", 1, 2).0 == Ore(11);
  }
}

/** The objects of AOC19-14.js: `Node`, `System` and the FUEL search. */
module ReactionSystem {
  import opened Wrappers
  import opened Text
  import opened Reactions

  /** A chemical and a quantity; the node of a reaction's output holds its inputs as child nodes. */
  class Node {
    const name: string
    const value: int
    var nodes: seq<Node>
    var parent: Node?

    constructor (name: string, value: int)
      ensures this.name == name && this.value == value && nodes == [] && parent == null
    {
      this.name := name;
      this.value := value;
      nodes := [];
      parent := null;
    }

    /** `add(node)`: the node takes this one as its parent and goes after the children already there. */
    method Add(node: Node)
      modifies this, node
      ensures node.parent == this && nodes == old(nodes) + [node]
      ensures node != this ==> node.nodes == old(node.nodes)
    {
      node.parent := this;
      nodes := nodes + [node];
    }
  }

  /** What a run of nodes says: each node's quantity and name. */
  function Terms(ns: seq<Node>): (ts: seq<Term>)
    ensures |ts| == |ns|
  {
    seq(|ns|, i requires 0 <= i < |ns| => Term(ns[i].value, ns[i].name))
  }

  /** The `outputs` Map: the node under each key, and the keys in insertion order. */
  datatype Outputs = Outputs(nodes: map<string, Node>, order: seq<string>)

  /** `outputs.set(name, node)`: a new key goes last, a known key keeps its place and takes the new node. */
  function Set(o: Outputs, name: string, node: Node): Outputs {
    Outputs(o.nodes[name := node], if name in o.nodes then o.order else o.order + [name])
  }

  /** Every node under a key is one of `repr` and carries the key as its name; the keys are listed once each. */
  ghost predicate Holds(o: Outputs, repr: set<Node>) {
    (forall k | k in o.nodes :: o.nodes[k] in repr && o.nodes[k].name == k) &&
    Distinct(o.order) && (forall k :: k in o.nodes <==> k in o.order)
  }

  /** The list the nodes hold: under each key, the node's quantity and its children's quantities and names. */
  ghost function BookOf(o: Outputs, repr: set<Node>): Book
    reads repr
  {
    Book(o.order, map k | k in o.nodes && o.nodes[k] in repr :: Recipe(o.nodes[k].value, Terms(o.nodes[k].nodes)))
  }

  /** Setting a key to a new node keeps the nodes holding the keys, with the new node among them. */
  lemma SetHolds(o: Outputs, repr: set<Node>, name: string, node: Node)
    requires Holds(o, repr) && node.name == name
    ensures Holds(Set(o, name, node), repr + {node})
  {
    if name !in o.nodes {
      assert name !in o.order;
    }
  }

  /** Setting a key to a new node puts the node's reaction into the list. */
  lemma SetPuts(o: Outputs, repr: set<Node>, name: string, node: Node)
    requires Holds(o, repr) && node !in repr && node.name == name
    ensures BookOf(Set(o, name, node), repr + {node}) == Put(BookOf(o, repr), name, Recipe(node.value, Terms(node.nodes)))
  {
    var r := Recipe(node.value, Terms(node.nodes));
    var before := BookOf(o, repr);
    var after := BookOf(Set(o, name, node), repr + {node});
    assert name in before.recipes <==> name in o.nodes;
    assert after.recipes == before.recipes[name := r] by {
      forall k | k in o.nodes && k != name
        ensures o.nodes[k] in repr && o.nodes[k] != node
      {
      }
    }
  }

  /** One more node at the end says one more term at the end. */
  lemma NodesSnoc(ns: seq<Node>, n: Node)
    ensures Terms(ns + [n]) == Terms(ns) + [Term(n.value, n.name)]
  {
    assert forall i | 0 <= i < |ns| :: (ns + [n])[i] == ns[i];
  }

  /** Once a prefix of the lines throws, all the lines do. */
  lemma {:induction false} LinesThrow(lines: seq<string>, k: nat)
    requires k <= |lines| && ParseLines(lines[..k]).Throws?
    ensures ParseLines(lines).Throws?
    decreases |lines| - k
  {
    if k == |lines| {
      Whole(lines);
    } else {
      Grow(lines, k);
      LinesThrow(lines, k + 1);
    }
  }

  /** Once a prefix of the pieces throws, all the pieces do. */
  lemma {:induction false} PiecesThrow(pieces: seq<string>, k: nat)
    requires k <= |pieces| && ParseTerms(pieces[..k]).Throws?
    ensures ParseTerms(pieces).Throws?
    decreases |pieces| - k
  {
    if k == |pieces| {
      Whole(pieces);
    } else {
      Grow(pieces, k);
      PiecesThrow(pieces, k + 1);
    }
  }

  /** What a piece parses to, from the words of its trim. */
  lemma TermStep(piece: string, words: seq<string>)
    requires words == Split(Trim(piece), " ")
    ensures |words| < 2 ==> ParseTerm(piece).None?
    ensures |words| >= 2 ==> ParseTerm(piece) == Some((ParseInt(Trim(words[0])), Trim(words[1])))
  { }

  /** Parsing one more piece: a throw stays a throw, a NaN stays a NaN, and otherwise the new term goes last. */
  lemma TermsStep(pieces: seq<string>, j: nat, term: Option<(Option<int>, string)>)
    requires j < |pieces| && term == ParseTerm(pieces[j])
    ensures ParseTerms(pieces[..j + 1]).Throws? <==> ParseTerms(pieces[..j]).Throws? || term.None?
    ensures !ParseTerms(pieces[..j + 1]).Throws? ==>
      (ParseTerms(pieces[..j + 1]).NaN? <==> ParseTerms(pieces[..j]).NaN? || term.value.0.None?)
    ensures ParseTerms(pieces[..j + 1]).Parsed? ==>
      ParseTerms(pieces[..j + 1]).value == ParseTerms(pieces[..j]).value + [Term(term.value.0.value, term.value.1)]
  {
    Grow(pieces, j);
  }

  /** What a line with an arrow and a well-formed output parses to, from its pieces. */
  lemma LineStep(line: string, parts: seq<string>, output: Option<(Option<int>, string)>, pieces: seq<string>)
    requires parts == Split(line, "=>") && |parts| >= 2 && output == ParseTerm(parts[1]) && output.Some?
    requires pieces == Split(Trim(parts[0]), ",")
    ensures ParseLine(line).Throws? <==> ParseTerms(pieces).Throws?
    ensures !ParseLine(line).Throws? ==> (ParseLine(line).NaN? <==> output.value.0.None? || ParseTerms(pieces).NaN?)
    ensures ParseLine(line).Parsed? ==> ParseLine(line).value == (output.value.1, Recipe(output.value.0.value, ParseTerms(pieces).value))
  { }

  /** A line without an arrow, or whose output lacks a name, throws. */
  lemma LineThrows(line: string, parts: seq<string>)
    requires parts == Split(line, "=>")
    requires |parts| < 2 || ParseTerm(parts[1]).None?
    ensures ParseLine(line).Throws?
  { }

  /** Parsing one more line: a throw stays a throw, a NaN stays a NaN, and otherwise the line's reaction is put into the list. */
  lemma LinesStep(lines: seq<string>, k: nat, line: Parse<(string, Recipe)>)
    requires k < |lines| && line == ParseLine(lines[k])
    ensures ParseLines(lines[..k + 1]).Throws? <==> ParseLines(lines[..k]).Throws? || line.Throws?
    ensures !ParseLines(lines[..k + 1]).Throws? ==>
      (ParseLines(lines[..k + 1]).NaN? <==> ParseLines(lines[..k]).NaN? || line.NaN?)
    ensures ParseLines(lines[..k + 1]).Parsed? ==>
      ParseLines(lines[..k + 1]).value == Put(ParseLines(lines[..k]).value, line.value.0, line.value.1)
  {
    Grow(lines, k);
  }

  /**
   * The inner loop of `_parse`: a child node per piece, added to the
   * output's node in order; a piece without a name throws a TypeError.
   */
  method AddInputs(outputNode: Node, pieces: seq<string>) returns (thrown: bool, sawNaN: bool)
    requires outputNode.nodes == []
    modifies outputNode
    ensures thrown <==> ParseTerms(pieces).Throws?
    ensures !thrown ==> (sawNaN <==> ParseTerms(pieces).NaN?)
    ensures !thrown && !sawNaN ==> Terms(outputNode.nodes) == ParseTerms(pieces).value
  {
    sawNaN := false;
    for j := 0 to |pieces|
      invariant !ParseTerms(pieces[..j]).Throws?
      invariant sawNaN <==> ParseTerms(pieces[..j]).NaN?
      invariant !sawNaN ==> Terms(outputNode.nodes) == ParseTerms(pieces[..j]).value
    {
      var inputWords := Split(Trim(pieces[j]), " ");
      TermStep(pieces[j], inputWords);
      TermsStep(pieces, j, ParseTerm(pieces[j]));
      if |inputWords| < 2 {
        PiecesThrow(pieces, j + 1);
        return true, sawNaN;
      }
      var inputName := Trim(inputWords[1]);
      var inputValue := ParseInt(Trim(inputWords[0]));
      sawNaN := sawNaN || inputValue.None?;
      var inputNode := new Node(inputName, inputValue.GetOr(0));
      NodesSnoc(outputNode.nodes, inputNode);
      outputNode.Add(inputNode);
    }
    Whole(pieces);
    thrown := false;
  }

  /**
   * The body of `_parse`'s loop: the output's node of one line, holding a
   * child node per input; a line without `=>`, or a term without a name,
   * throws a TypeError.
   */
  method ReadLine(line: string) returns (thrown: bool, sawNaN: bool, node: Node?)
    ensures thrown <==> ParseLine(line).Throws?
    ensures !thrown ==> node != null && fresh(node) && (sawNaN <==> ParseLine(line).NaN?)
    ensures !thrown && !sawNaN ==> ParseLine(line).value == (node.name, Recipe(node.value, Terms(node.nodes)))
  {
    var parts := Split(line, "=>");
    if |parts| < 2 {
      LineThrows(line, parts);
      return true, false, null;
    }
    var words := Split(Trim(parts[1]), " ");
    TermStep(parts[1], words);
    if |words| < 2 {
      LineThrows(line, parts);
      return true, false, null;
    }
    var name := Trim(words[1]);
    var value := ParseInt(Trim(words[0]));
    node := new Node(name, value.GetOr(0));
    var pieces := Split(Trim(parts[0]), ",");
    LineStep(line, parts, ParseTerm(parts[1]), pieces);
    var inputsNaN;
    thrown, inputsNaN := AddInputs(node, pieces);
    sawNaN := value.None? || inputsNaN;
  }

  /** `_parse(reactions)`: each line's node, set under its output's name. */
  method ParseReactions(reactions: seq<string>) returns (outcome: Parse<Outputs>, ghost repr: set<Node>)
    ensures outcome.Throws? <==> ParseLines(reactions).Throws?
    ensures outcome.NaN? <==> ParseLines(reactions).NaN?
    ensures outcome.Parsed? ==> Holds(outcome.value, repr) && BookOf(outcome.value, repr) == ParseLines(reactions).value
  {
    var outputs := Outputs(map[], []);
    repr := {};
    var sawNaN := false;
    for k := 0 to |reactions|
      invariant Holds(outputs, repr)
      invariant !ParseLines(reactions[..k]).Throws?
      invariant sawNaN <==> ParseLines(reactions[..k]).NaN?
      invariant !sawNaN ==> BookOf(outputs, repr) == ParseLines(reactions[..k]).value
    {
      var thrown, lineNaN, node := ReadLine(reactions[k]);
      LinesStep(reactions, k, ParseLine(reactions[k]));
      if thrown {
        LinesThrow(reactions, k + 1);
        return Throws, repr;
      }
      SetHolds(outputs, repr, node.name, node);
      SetPuts(outputs, repr, node.name, node);
      outputs := Set(outputs, node.name, node);
      repr := repr + {node};
      sawNaN := sawNaN || lineNaN;
    }
    Whole(reactions);
    outcome := if sawNaN then NaN else Parsed(outputs);
  }

  /** Printing one more input extends the listing by it. */
  lemma ListingStep(inputs: seq<Term>, i: nat, prefix: string, text: string, piece: string, tail: string)
    requires i < |inputs| && text == prefix + Listing(inputs, i) && piece == TermText(inputs[i])
    requires tail == if i < |inputs| - 1 then ", " else ""
    ensures text + piece + tail == prefix + Listing(inputs, i + 1)
  {
    Assoc(prefix, Listing(inputs, i), piece);
    Assoc(prefix, Listing(inputs, i) + piece, tail);
  }

  /** Regrouping the text of a line as `toString` appends it. */
  lemma Arrowed(lines: string, listing: string, number: string, name: string)
    ensures (lines + listing) + (" => " + number + " " + name + "\n") == lines + (listing + " => " + (number + " " + name)) + "\n"
  { }

  /** Printing the arrow and the output after a reaction's whole listing completes its line. */
  lemma PrintStep(b: Book, k: nat, text: string, name: string, r: Recipe)
    requires k < |b.order| && (forall n | n in b.order :: n in b.recipes)
    requires name == b.order[k] && r == b.recipes[name]
    requires text == Lines(b, k) + Listing(r.inputs, |r.inputs|)
    ensures text + (" => " + Decimal(r.produced) + " " + name + "\n") == Lines(b, k + 1)
  {
    Arrowed(Lines(b, k), Listing(r.inputs, |r.inputs|), Decimal(r.produced), name);
  }

  /** A system: the `outputs` Map that `_parse` built, and the nodes it holds. */
  class System {
    const outputs: Outputs
    ghost const Repr: set<Node>

    ghost predicate Valid() {
      Holds(outputs, Repr)
    }

    /** The list the system holds. */
    ghost function Contents(): Book
      reads Repr
      requires Valid()
    {
      BookOf(outputs, Repr)
    }

    constructor Of(outputs: Outputs, ghost repr: set<Node>)
      requires Holds(outputs, repr)
      ensures this.outputs == outputs && Repr == repr && Valid()
    {
      this.outputs := outputs;
      Repr := repr;
    }

    /**
     * `toString()`: for each output in insertion order, its inputs joined
     * by `, `, then ` => ` and the output, then a line break; the whole
     * trimmed.
     */
    method ToString() returns (text: string)
      requires Valid()
      ensures text == Render(Contents())
    {
      ghost var b := Contents();
      text := "";
      for k := 0 to |outputs.order|
        invariant text == Lines(b, k)
      {
        var product := outputs.nodes[outputs.order[k]];
        var components := product.nodes;
        ghost var r := Recipe(product.value, Terms(components));
        assert b.recipes[b.order[k]] == r;
        for i := 0 to |components|
          invariant text == Lines(b, k) + Listing(r.inputs, i)
        {
          var component := components[i];
          var piece := Decimal(component.value) + " " + component.name;
          var tail := if i < |components| - 1 then ", " else "";
          ListingStep(r.inputs, i, Lines(b, k), text, piece, tail);
          text := text + piece;
          if i < |components| - 1 {
            text := text + ", ";
          }
          assert text == Lines(b, k) + Listing(r.inputs, i + 1) by {
            Whole(text);
          }
        }
        PrintStep(b, k, text, product.name, r);
        text := text + (" => " + Decimal(product.value) + " " + product.name + "\n");
      }
      text := Trim(text);
    }

    /**
     * `_react(surplus, name, amount)`, with the ORE inputs tallied as
     * `tally` says (see `Tally`): the ORE `amount` of `name` takes, the
     * surplus Map updated in place.
     */
    method ReactWith(tally: Tally, surplus: Surplus, name: string, amount: int, depth: nat) returns (cost: Cost)
      requires Valid()
      modifies surplus
      ensures (cost, surplus.amounts) == Resolve(tally, Contents().recipes, old(surplus.amounts), name, amount, depth)
      decreases depth, 0
    {
      var need := amount;
      if name in surplus.amounts {
        var extra := surplus.amounts[name];
        if extra >= amount {
          surplus.amounts := surplus.amounts[name := extra - amount];
          return Ore(0);
        }
        need := amount - extra;
      }
      if name !in outputs.nodes {
        return Undefined(name);
      }
      var product := outputs.nodes[name];
      ghost var book := Contents().recipes;
      assert book[name] == Recipe(product.value, Terms(product.nodes));
      if product.value == 0 {
        return Unmodelled(name);
      }
      if depth == 0 {
        return Exhausted;
      }
      var multiplier := CeilDiv(need, product.value);
      surplus.amounts := surplus.amounts[name := product.value * multiplier - need];
      cost := ReactInputs(tally, surplus, product.nodes, multiplier, depth - 1, book);
    }

    /** The loop of `_react` over a product's components, each needed `multiplier` times. */
    method ReactInputs(tally: Tally, surplus: Surplus, components: seq<Node>, multiplier: int, depth: nat, ghost book: map<string, Recipe>) returns (cost: Cost)
      requires Valid() && book == Contents().recipes
      modifies surplus
      ensures (cost, surplus.amounts) == Gather(tally, book, old(surplus.amounts), Terms(components), multiplier, 0, depth)
      decreases depth, 1
    {
      var value := 0;
      ghost var inputs := Terms(components);
      ghost var start := surplus.amounts;
      for i := 0 to |components|
        invariant Gather(tally, book, surplus.amounts, inputs[i..], multiplier, value, depth) == Gather(tally, book, start, inputs, multiplier, 0, depth)
      {
        var component := components[i];
        assert inputs[i..][0] == Term(component.value, component.name) && inputs[i..][1..] == inputs[i + 1..];
        if component.name == "ORE" {
          if tally == AsWritten {
            value := multiplier * component.value;
          } else {
            value := value + multiplier * component.value;
          }
        } else {
          var c := ReactWith(tally, surplus, component.name, component.value * multiplier, depth);
          if !c.Ore? {
            return c;
          }
          value := value + c.ore;
        }
      }
      cost := Ore(value);
    }

    /** `react(name, amount)`: the ORE `amount` of `name` takes, from an empty surplus Map. */
    method React(tally: Tally, name: string, amount: int, depth: nat) returns (cost: Cost)
      requires Valid()
      ensures cost == Reactions.React(tally, Contents().recipes, name, amount, depth)
    {
      var surplus := new Surplus();
      cost := ReactWith(tally, surplus, name, amount, depth);
    }
  }

  /** The surplus Map that `react` creates and `_react` updates: the leftover quantity of each chemical made so far. */
  class Surplus {
    var amounts: map<string, int>

    /** `new Map()`. */
    constructor ()
      ensures amounts == map[]
    {
      amounts := map[];
    }
  }

  /** How the FUEL search ends: with its estimate, on a failed `react`, or out of rounds. */
  datatype Search = Estimate(fuel: int) | Failed(cost: Cost) | Unfinished

  /** `fuel` FUEL takes less than `target` ORE. */
  ghost predicate Affords(tally: Tally, b: Book, fuel: int, target: int, depth: nat) {
    var c := Reactions.React(tally, b.recipes, "FUEL", fuel, depth);
    c.Ore? && c.ore < target
  }

  /** `fuel` FUEL takes `target` ORE or more. */
  ghost predicate Exceeds(tally: Tally, b: Book, fuel: int, target: int, depth: nat) {
    var c := Reactions.React(tally, b.recipes, "FUEL", fuel, depth);
    c.Ore? && c.ore >= target
  }

  /**
   * The FUEL search: powers of ten while they stay below `target` ORE, then
   * steps of 1000, 100, 10 and 1, each step taken back when it reaches
   * `target`. The estimate it ends with is affordable and one more FUEL is
   * not. `rounds` bounds the refinement loop, which runs until a step of 1
   * is taken back.
   */
  method EstimateFuel(tally: Tally, system: System, target: int, depth: nat, rounds: nat) returns (search: Search)
    requires system.Valid()
    ensures search.Estimate? ==> (search.fuel == 0 || Affords(tally, system.Contents(), search.fuel, target, depth))
    ensures search.Estimate? ==> Exceeds(tally, system.Contents(), search.fuel + 1, target, depth)
  {
    ghost var b := system.Contents();
    var estimate := 0;
    var i := 1;
    while i < target
      invariant i >= 1
      invariant estimate == 0 || Affords(tally, b, estimate, target, depth)
      decreases target - i
    {
      var cost := system.React(tally, "FUEL", i, depth);
      if !cost.Ore? {
        return Failed(cost);
      }
      if cost.ore >= target {
        break;
      }
      estimate := i;
      i := i * 10;
    }
    var step := 1000;
    var left := rounds;
    while left > 0
      invariant step == 1000 || step == 100 || step == 10 || step == 1
      invariant estimate == 0 || Affords(tally, b, estimate, target, depth)
    {
      left := left - 1;
      estimate := estimate + step;
      var cost := system.React(tally, "FUEL", estimate, depth);
      if !cost.Ore? {
        return Failed(cost);
      }
      if cost.ore >= target {
        estimate := estimate - step;
        if step > 1 {
          step := step / 10;
        } else {
          return Estimate(estimate);
        }
      }
    }
    search := Unfinished;
  }

  /** `new System(reactions)`: the system `_parse` builds, or the TypeError it throws. */
  method NewSystem(reactions: seq<string>) returns (system: Parse<System>)
    ensures system.Throws? <==> ParseLines(reactions).Throws?
    ensures system.NaN? <==> ParseLines(reactions).NaN?
    ensures system.Parsed? ==> system.value.Valid() && system.value.Contents() == ParseLines(reactions).value
  {
    var outcome, repr := ParseReactions(reactions);
    if outcome.Throws? {
      system := Throws;
    } else if outcome.NaN? {
      system := NaN;
    } else {
      var s := new System.Of(outcome.value, repr);
      system := Parsed(s);
    }
  }
}
