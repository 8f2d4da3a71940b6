/**
 * The product form of the web front end (static/js/products.js): the short
 * code generated from an attribute value's name, the product code assembled
 * from the chosen template and attribute values, and the completeness check
 * made before a product is saved.
 *
 * The page's selects and the loaded template list are passed in as values.
 */
module ProductsJs {
  import opened Wrappers
  import opened Text

  // ---------------------------------------------------------------------------
  // generateAttributeCode

  predicate NotMark(c: char) {
    !IsCombiningMark(c)
  }

  predicate NotSpace(c: char) {
    !IsJsSpace(c)
  }

  /** Upper-casing leaves a character alone or gives an ASCII or Vietnamese capital. */
  lemma UpperCharRange(c: char)
    ensures var u := UpperChar(c);
      u == c || 'A' <= u <= 'Z' || '\U{00C0}' <= u <= '\U{01AF}' || '\U{1EA0}' <= u <= '\U{1EF9}'
  {
  }

  lemma UpperKeeps(s: string, p: char -> bool)
    requires p == NotMark || p == NotSpace
    requires All(s, p)
    ensures All(Upper(s), p)
  {
    forall i | 0 <= i < |s| ensures p(Upper(s)[i]) {
      UpperCharRange(s[i]);
    }
  }

  /** Filtering keeps any property every character already has. */
  lemma {:induction false} FilterKeeps(s: string, p: char -> bool, q: char -> bool)
    requires All(s, q)
    ensures All(Filter(s, p), q)
    decreases |s|
  {
    if s != [] {
      FilterKeeps(s[1..], p, q);
    }
  }

  /** Decomposing a string without spaces gives a string without spaces. */
  lemma {:induction false} NfdKeepsNonSpace(s: string)
    requires All(s, NotSpace)
    ensures All(NfdString(s), NotSpace)
    decreases |s|
  {
    if s != [] {
      DecomposeBase(s[0]);
      NfdKeepsNonSpace(s[1..]);
      var head := Nfd(s[0]);
      assert forall j | 1 <= j < |head| :: IsCombiningMark(head[j]);
      assert NfdString(s) == head + NfdString(s[1..]);
    }
  }

  /**
   * The de-accented, upper-cased text: normalize('NFD'), removal of the marks
   * U+0300 to U+036F, then toUpperCase().
   */
  function Plain(text: string): (p: string)
    ensures All(p, NotMark)
  {
    var stripped := Filter(NfdString(text), NotMark);
    UpperKeeps(stripped, NotMark);
    Upper(stripped)
  }

  /** The words of the plain text, split at runs of whitespace as split(/\s+/) does. */
  function Words(text: string): (words: seq<string>)
    ensures |words| >= 1
  {
    SplitOnRuns(Plain(text), IsJsSpace)
  }

  /** The first n characters, or all of them when there are fewer: substring(0, n). */
  function Take(s: string, n: nat): (r: string)
    ensures |r| <= n && |r| <= |s| && r == s[..|r|]
  {
    if |s| <= n then s else s[..n]
  }

  /** The first two characters of each word, concatenated. */
  function Initials(words: seq<string>): (r: string)
    ensures |r| <= 2 * |words|
    decreases |words|
  {
    if words == [] then [] else Take(words[0], 2) + Initials(words[1..])
  }

  /** Every character of every word satisfies p. */
  predicate AllWords(words: seq<string>, p: char -> bool)
    decreases |words|
  {
    words == [] || (All(words[0], p) && AllWords(words[1..], p))
  }

  lemma {:induction false} InitialsKeep(words: seq<string>, p: char -> bool)
    requires AllWords(words, p)
    ensures All(Initials(words), p)
    decreases |words|
  {
    if words != [] {
      InitialsKeep(words[1..], p);
    }
  }

  /**
   * generateAttributeCode: empty text gives an empty code, one word its
   * first three characters, several words the first two of each.
   */
  function GenerateAttributeCode(text: string): (code: string)
    ensures text == [] ==> code == []
    ensures |code| <= (if |Words(text)| == 1 then 3 else 2 * |Words(text)|)
  {
    if text == [] then []
    else
      var words := Words(text);
      if |words| == 1 then Take(words[0], 3) else Initials(words)
  }

  /** No generated code contains a combining mark. */
  lemma CodeHasNoMarks(text: string)
    ensures All(GenerateAttributeCode(text), NotMark)
  {
    var p := Plain(text);
    var words := SplitOnRuns(p, IsJsSpace);
    SplitOnRunsKeeps(p, IsJsSpace, NotMark);
    if text != [] && |words| != 1 {
      InitialsKeep(words, NotMark);
    }
  }

  lemma AllSlice(s: string, i: nat, j: nat, p: char -> bool)
    requires All(s, p) && i <= j <= |s|
    ensures All(s[i..j], p)
  {
    forall k | 0 <= k < j - i ensures p(s[i..j][k]) {
      assert s[i..j][k] == s[i + k];
    }
  }

  /** What follows the first run of separators keeps a property of every character. */
  lemma RestKeeps(s: string, i: nat, isSep: char -> bool, p: char -> bool)
    requires All(s, p) && i < |s|
    ensures All(TrimStart(s[i + 1..], isSep), p)
  {
    var after := s[i + 1..];
    var rest := TrimStart(after, isSep);
    AllSlice(s, i + 1, |s|, p);
    AllSlice(after, |after| - |rest|, |after|, p);
    assert rest == after[|after| - |rest|..|after|];
  }

  /** Every piece of a split keeps a property of every character of the text. */
  lemma {:induction false} SplitOnRunsKeeps(s: string, isSep: char -> bool, p: char -> bool)
    requires All(s, p)
    ensures AllWords(SplitOnRuns(s, isSep), p)
    decreases |s|
  {
    var i := FirstIndex(s, isSep);
    if i < |s| {
      var rest := TrimStart(s[i + 1..], isSep);
      RestKeeps(s, i, isSep, p);
      AllSlice(s, 0, i, p);
      SplitOnRunsKeeps(rest, isSep, p);
      var parts := [s[..i]] + SplitOnRuns(rest, isSep);
      assert SplitOnRuns(s, isSep) == parts;
      ConsAllWords(s[..i], SplitOnRuns(rest, isSep), p);
    } else {
      assert SplitOnRuns(s, isSep) == [s] + [];
      ConsAllWords(s, [], p);
    }
  }

  lemma ConsAllWords(word: string, words: seq<string>, p: char -> bool)
    requires All(word, p) && AllWords(words, p)
    ensures AllWords([word] + words, p)
  {
    assert ([word] + words)[1..] == words;
  }

  /** A text with no whitespace is one word: its code is the first three plain characters. */
  lemma SingleWordCode(text: string)
    requires text != [] && All(text, NotSpace)
    ensures GenerateAttributeCode(text) == Take(Plain(text), 3)
  {
    var nfd := NfdString(text);
    NfdKeepsNonSpace(text);
    var stripped := Filter(nfd, NotMark);
    FilterKeeps(nfd, NotMark, NotSpace);
    UpperKeeps(stripped, NotSpace);
    var p := Plain(text);
    assert FirstIndex(p, IsJsSpace) == |p|;
  }

  /** Decomposition distributes over concatenation. */
  lemma {:induction false} NfdAppend(s: string, t: string)
    ensures NfdString(s + t) == NfdString(s) + NfdString(t)
    decreases |s|
  {
    if s == [] {
      assert s + t == t;
    } else {
      assert (s + t)[0] == s[0];
      assert (s + t)[1..] == s[1..] + t;
      NfdAppend(s[1..], t);
    }
  }

  /** The plain form of a concatenation is the concatenation of the plain forms. */
  lemma PlainAppend(s: string, t: string)
    ensures Plain(s + t) == Plain(s) + Plain(t)
  {
    NfdAppend(s, t);
    FilterAppend(NfdString(s), NfdString(t), NotMark);
    var fs, ft := Filter(NfdString(s), NotMark), Filter(NfdString(t), NotMark);
    assert Upper(fs + ft) == Upper(fs) + Upper(ft);
  }

  /** A text without whitespace has a plain form without whitespace. */
  lemma PlainKeepsNonSpace(text: string)
    requires All(text, NotSpace)
    ensures All(Plain(text), NotSpace)
  {
    var nfd := NfdString(text);
    NfdKeepsNonSpace(text);
    FilterKeeps(nfd, NotMark, NotSpace);
    UpperKeeps(Filter(nfd, NotMark), NotSpace);
  }

  /** A word that does not start with a bare combining mark keeps a character in its plain form. */
  lemma PlainNonEmpty(w: string)
    requires w != [] && !IsCombiningMark(w[0])
    ensures Plain(w) != []
  {
    DecomposeBase(w[0]);
    var nfd := NfdString(w);
    assert nfd == Nfd(w[0]) + NfdString(w[1..]);
    assert nfd[0] == Decompose(w[0]).0;
    assert Filter(nfd, NotMark) == [nfd[0]] + Filter(nfd[1..], NotMark);
  }

  /** The plain forms of a list of words. */
  function PlainWords(words: seq<string>): (ps: seq<string>)
    ensures |ps| == |words| && forall i | 0 <= i < |words| :: ps[i] == Plain(words[i])
  {
    seq(|words|, i requires 0 <= i < |words| => Plain(words[i]))
  }

  /** The plain form of a space is a space. */
  lemma PlainSpace()
    ensures Plain(" ") == " "
  {
    assert NfdString(" ") == " ";
  }

  /** The plain form of words joined by single spaces is their plain forms joined likewise. */
  lemma {:induction false} PlainJoin(words: seq<string>)
    ensures Plain(Join(words, " ")) == Join(PlainWords(words), " ")
    decreases |words|
  {
    if |words| == 0 {
      assert NfdString([]) == [];
    } else if |words| > 1 {
      var rest := words[1..];
      PlainJoin(rest);
      PlainAppend(words[0] + " ", Join(rest, " "));
      PlainAppend(words[0], " ");
      PlainSpace();
      assert PlainWords(words)[1..] == PlainWords(rest);
    }
  }

  /** A piece without whitespace is split nowhere. */
  lemma OneWord(w: string)
    requires All(w, NotSpace)
    ensures SplitOnRuns(w, IsJsSpace) == [w]
  {
    assert FirstIndex(w, IsJsSpace) == |w|;
  }

  /** The first whitespace of a word, a space and a rest is that space. */
  lemma FirstSpaceAfterWord(w: string, rest: string)
    requires All(w, NotSpace)
    ensures FirstIndex(w + " " + rest, IsJsSpace) == |w|
  {
    var s := w + " " + rest;
    assert s[|w|] == ' ';
    assert forall j | 0 <= j < |w| :: s[j] == w[j];
  }

  /** A word, a space and a text that starts with a non-space split into the word and the text's pieces. */
  lemma SplitAfterWord(w: string, rest: string)
    requires All(w, NotSpace) && rest != [] && !IsJsSpace(rest[0])
    ensures SplitOnRuns(w + " " + rest, IsJsSpace) == [w] + SplitOnRuns(rest, IsJsSpace)
  {
    var s := w + " " + rest;
    FirstSpaceAfterWord(w, rest);
    assert s[|w| + 1..] == rest;
    assert s[..|w|] == w;
  }

  /** Words joined by spaces start with the first word. */
  lemma JoinStart(words: seq<string>)
    requires |words| >= 1 && words[0] != []
    ensures Join(words, " ") != [] && Join(words, " ")[0] == words[0][0]
  {
    if |words| > 1 {
      assert Join(words, " ") == words[0] + " " + Join(words[1..], " ");
    }
  }

  /** One more piece in front of a text that splits back into its pieces. */
  lemma SplitJoinStep(p0: string, tail: seq<string>)
    requires All(p0, NotSpace) && |tail| >= 1 && tail[0] != [] && All(tail[0], NotSpace)
    requires SplitOnRuns(Join(tail, " "), IsJsSpace) == tail
    ensures SplitOnRuns(Join([p0] + tail, " "), IsJsSpace) == [p0] + tail
  {
    var rest := Join(tail, " ");
    assert ([p0] + tail)[1..] == tail;
    assert Join([p0] + tail, " ") == p0 + " " + rest;
    JoinStart(tail);
    SplitAfterWord(p0, rest);
  }

  /** split(/\s+/) takes apart non-empty pieces without whitespace joined by single spaces. */
  lemma {:induction false} SplitJoinedWords(pieces: seq<string>)
    requires |pieces| >= 1
    requires forall i | 0 <= i < |pieces| :: pieces[i] != [] && All(pieces[i], NotSpace)
    ensures SplitOnRuns(Join(pieces, " "), IsJsSpace) == pieces
    decreases |pieces|
  {
    if |pieces| == 1 {
      OneWord(pieces[0]);
    } else {
      var tail := pieces[1..];
      SplitJoinedWords(tail);
      SplitJoinStep(pieces[0], tail);
      assert [pieces[0]] + tail == pieces;
    }
  }

  /**
   * Several words joined by single spaces, none starting with a bare
   * combining mark, give the first two plain characters of each, in order.
   */
  lemma SeveralWordsCode(words: seq<string>)
    requires |words| >= 2
    requires forall i | 0 <= i < |words| :: words[i] != [] && All(words[i], NotSpace) && !IsCombiningMark(words[i][0])
    ensures GenerateAttributeCode(Join(words, " ")) == Initials(PlainWords(words))
  {
    var text := Join(words, " ");
    var ps := PlainWords(words);
    assert text == words[0] + " " + Join(words[1..], " ");
    PlainJoin(words);
    forall i | 0 <= i < |ps|
      ensures ps[i] != [] && All(ps[i], NotSpace)
    {
      PlainNonEmpty(words[i]);
      PlainKeepsNonSpace(words[i]);
    }
    SplitJoinedWords(ps);
    assert Words(text) == ps;
  }

  // ---------------------------------------------------------------------------
  // updateProductCode

  /** A template as loaded by the page; an empty string stands for a missing or false field. */
  datatype Template = Template(id: nat, name: string, defaultCode: string)

  /** An attribute select: nothing chosen, or the text of the chosen option. */
  datatype AttributeSelect = Unselected | Selected(optionText: string)

  /** templates.find(t => t.id == templateId). */
  function FindTemplate(templates: seq<Template>, id: nat): (t: Option<Template>)
    ensures t.Some? ==> t.value in templates && t.value.id == id
    ensures t.None? ==> forall i | 0 <= i < |templates| :: templates[i].id != id
    decreases |templates|
  {
    if templates == [] then None
    else if templates[0].id == id then Some(templates[0])
    else FindTemplate(templates[1..], id)
  }

  /** The code's base: the template's code, else its name, else PRODUCT. */
  function BaseCode(t: Template): (base: string)
    ensures base != []
  {
    if t.defaultCode != [] then t.defaultCode else if t.name != [] then t.name else "PRODUCT"
  }

  /** One "-" and the code codeOf gives the option's text, per chosen attribute, in order. */
  function SegmentsBy(selects: seq<AttributeSelect>, codeOf: string -> string): string
    decreases |selects|
  {
    if selects == [] then []
    else
      var last := selects[|selects| - 1];
      SegmentsBy(selects[..|selects| - 1], codeOf)
        + (if last.Selected? then "-" + codeOf(last.optionText) else [])
  }

  /** The segments with the short codes of generateAttributeCode. */
  function Segments(selects: seq<AttributeSelect>): string {
    SegmentsBy(selects, GenerateAttributeCode)
  }

  /** The code updateProductCode writes into the code field. */
  function ProductCode(templateId: Option<nat>, templates: seq<Template>, selects: seq<AttributeSelect>): (code: string)
    ensures templateId.None? ==> code == []
    ensures templateId.Some? && FindTemplate(templates, templateId.value).None? ==> code == []
    ensures templateId.Some? && FindTemplate(templates, templateId.value).Some? ==>
      code != [] && code == BaseCode(FindTemplate(templates, templateId.value).value) + Segments(selects)
  {
    if templateId.None? then []
    else match FindTemplate(templates, templateId.value)
      case None => []
      case Some(t) => BaseCode(t) + Segments(selects)
  }

  /** updateProductCode: the template lookup, then the loop over the selects. */
  method UpdateProductCode(templateId: Option<nat>, templates: seq<Template>, selects: seq<AttributeSelect>)
    returns (code: string)
    ensures code == ProductCode(templateId, templates, selects)
  {
    if templateId.None? {
      return "";
    }
    var template := FindTemplate(templates, templateId.value);
    if template.None? {
      return "";
    }
    code := AppendSegments(BaseCode(template.value), selects);
  }

  /** The forEach of updateProductCode: one "-" and short code per chosen value. */
  method AppendSegments(base: string, selects: seq<AttributeSelect>) returns (code: string)
    ensures code == base + Segments(selects)
  {
    code := base;
    var i := 0;
    while i < |selects|
      invariant 0 <= i <= |selects|
      invariant code == base + SegmentsBy(selects[..i], GenerateAttributeCode)
    {
      SegmentsStep(selects, i, GenerateAttributeCode);
      if selects[i].Selected? {
        var valueCode := GenerateAttributeCode(selects[i].optionText);
        code := code + "-" + valueCode;
      }
      i := i + 1;
    }
    assert selects[..i] == selects;
  }

  /** One more select adds its segment, when it is chosen. */
  lemma SegmentsStep(selects: seq<AttributeSelect>, i: nat, codeOf: string -> string)
    requires i < |selects|
    ensures SegmentsBy(selects[..i + 1], codeOf) == SegmentsBy(selects[..i], codeOf)
      + (if selects[i].Selected? then "-" + codeOf(selects[i].optionText) else [])
  {
    assert selects[..i + 1][..i] == selects[..i];
  }

  /** Segments of consecutive select lists concatenate. */
  lemma {:induction false} SegmentsAppend(a: seq<AttributeSelect>, b: seq<AttributeSelect>, codeOf: string -> string)
    ensures SegmentsBy(a + b, codeOf) == SegmentsBy(a, codeOf) + SegmentsBy(b, codeOf)
    decreases |b|
  {
    if b != [] {
      var b0 := b[..|b| - 1];
      assert (a + b)[..|a + b| - 1] == a + b0;
      SegmentsAppend(a, b0, codeOf);
    } else {
      assert a + b == a;
    }
  }

  /** Selects left empty add nothing to the code. */
  lemma {:induction false} UnselectedAddNothing(selects: seq<AttributeSelect>, codeOf: string -> string)
    requires forall i | 0 <= i < |selects| :: selects[i] == Unselected
    ensures SegmentsBy(selects, codeOf) == []
    decreases |selects|
  {
    if selects != [] {
      UnselectedAddNothing(selects[..|selects| - 1], codeOf);
    }
  }

  /** Choosing one more value appends exactly its "-" segment to the code. */
  lemma ChoosingAppendsSegment(before: seq<AttributeSelect>, text: string, after: seq<AttributeSelect>)
    requires forall i | 0 <= i < |after| :: after[i] == Unselected
    ensures Segments(before + [Selected(text)] + after)
      == Segments(before) + "-" + GenerateAttributeCode(text)
  {
    SegmentsAppend(before + [Selected(text)], after, GenerateAttributeCode);
    UnselectedAddNothing(after, GenerateAttributeCode);
    SegmentsAppend(before, [Selected(text)], GenerateAttributeCode);
    assert [Selected(text)][..0] == [];
  }

  // ---------------------------------------------------------------------------
  // saveProduct: completeness of the attribute values

  datatype SaveOutcome = MissingAttributes | Submit(attributeValueIds: seq<nat>)

  /** The chosen value ids, in the order of the selects. */
  function ChosenValues(selects: seq<Option<nat>>): (ids: seq<nat>)
    ensures |ids| <= |selects|
    decreases |selects|
  {
    if selects == [] then []
    else
      var last := selects[|selects| - 1];
      ChosenValues(selects[..|selects| - 1]) + (if last.Some? then [last.value] else [])
  }

  lemma {:induction false} AllChosen(selects: seq<Option<nat>>)
    ensures |ChosenValues(selects)| == |selects| <==> forall i | 0 <= i < |selects| :: selects[i].Some?
    ensures (forall i | 0 <= i < |selects| :: selects[i].Some?) ==>
      forall i | 0 <= i < |selects| :: ChosenValues(selects)[i] == selects[i].value
    decreases |selects|
  {
    if selects != [] {
      var init := selects[..|selects| - 1];
      AllChosen(init);
      assert forall i | 0 <= i < |init| :: init[i] == selects[i];
    }
  }

  /** The check saveProduct makes before sending the product. */
  function SaveAttributes(selects: seq<Option<nat>>): SaveOutcome {
    var ids := ChosenValues(selects);
    if |selects| > 0 && |ids| != |selects| then MissingAttributes else Submit(ids)
  }

  /**
   * Saving stops without a request exactly when some select is left empty;
   * otherwise every select's value is sent, in order.
   */
  lemma SaveNeedsEveryAttribute(selects: seq<Option<nat>>)
    ensures SaveAttributes(selects).MissingAttributes? <==> exists i | 0 <= i < |selects| :: selects[i].None?
    ensures SaveAttributes(selects).Submit? ==>
      |SaveAttributes(selects).attributeValueIds| == |selects|
      && forall i | 0 <= i < |selects| :: SaveAttributes(selects).attributeValueIds[i] == selects[i].value
  {
    AllChosen(selects);
  }

  /** The forEach collecting the chosen values. */
  method CollectAttributeValues(selects: seq<Option<nat>>) returns (ids: seq<nat>)
    ensures ids == ChosenValues(selects)
  {
    ids := [];
    var i := 0;
    while i < |selects|
      invariant 0 <= i <= |selects|
      invariant ids == ChosenValues(selects[..i])
    {
      assert selects[..i + 1][..i] == selects[..i];
      if selects[i].Some? {
        ids := ids + [selects[i].value];
      }
      i := i + 1;
    }
    assert selects[..i] == selects;
  }
}
